/**
 * The JSON record shapes of `internal/api/types.go`, each with the decoder
 * `encoding/json` applies to it, and `RequirementJSON.UnmarshalFollowingInfo`.
 */
module ApiTypes {
  import opened Wrappers
  import opened Text
  import opened Json
  import Model

  datatype ImpactJson = ImpactJson(low: bool, moderate: bool, high: bool)

  /** The domain impact with the same three flags. */
  function ToImpact(i: ImpactJson): (m: Model.Impact)
    ensures m.low == i.low && m.moderate == i.moderate && m.high == i.high
  {
    Model.Impact(i.low, i.moderate, i.high)
  }

  /**
   * One requirement record.  `followingInformation` is not read from JSON
   * (its tag is `json:"-"`); `rawFollowingInfo` keeps the undecoded member,
   * `None` standing for a nil `json.RawMessage`.
   */
  datatype RequirementJson = RequirementJson(
    id: Str,
    statement: Str,
    name: Str,
    impact: ImpactJson,
    affects: seq<Str>,
    primaryKeyWord: Str,
    note: Str,
    followingInformation: seq<RequirementJson>,
    rawFollowingInfo: Option<Value>)

  datatype RequirementCategory = RequirementCategory(
    id: Str,
    application: Str,
    name: Str,
    requirements: seq<RequirementJson>)

  datatype DefinitionJson = DefinitionJson(
    id: Str,
    term: Str,
    alts: seq<Str>,
    definition: Str,
    note: Str,
    notes: seq<Str>,
    reference: Str,
    referenceUrl: Str)

  datatype ControlJson = ControlJson(controlId: Str, title: Str)

  datatype IndicatorJson = IndicatorJson(
    id: Str,
    name: Str,
    statement: Str,
    impact: ImpactJson,
    controls: seq<ControlJson>,
    reference: Str,
    referenceUrl: Str,
    note: Str,
    retired: bool)

  datatype ThemeJson = ThemeJson(id: Str, name: Str, theme: Str, indicators: seq<IndicatorJson>)

  datatype EffectiveInfo = EffectiveInfo(
    applies: Str,  // the Go field `Is`
    signupUrl: Str,
    currentStatus: Str,
    startDate: Str,
    endDate: Str,
    comments: seq<Str>,
    warnings: seq<Str>)

  datatype RelatedRfc = RelatedRfc(
    id: Str,
    url: Str,
    discussionUrl: Str,
    shortName: Str,
    fullName: Str,
    startDate: Str,
    endDate: Str)

  datatype Release = Release(
    id: Str,
    publishedDate: Str,
    description: Str,
    publicComment: bool,
    relatedRfcs: seq<RelatedRfc>)

  datatype Authority = Authority(
    reference: Str,
    referenceUrl: Str,
    description: Str,
    delegation: Str,
    delegationUrl: Str)

  datatype FrontMatter = FrontMatter(authority: seq<Authority>, purpose: Str, expectedOutcomes: seq<Str>)

  /** The `info` envelope every document carries. */
  datatype DocumentInfo = DocumentInfo(
    name: Str,
    shortName: Str,
    effective: map<Str, EffectiveInfo>,
    releases: seq<Release>,
    frontMatter: FrontMatter)

  /** The definitions document; `frdAll` is the list under `FRD.ALL`. */
  datatype DefinitionsDocument = DefinitionsDocument(schema: Str, id: Str, info: DocumentInfo, frdAll: seq<DefinitionJson>)

  // ---- decoders: `None` is a non-nil error from json.Unmarshal ----
  //
  // Every struct decoder rejects a value that is neither an object nor
  // `null`, and decodes `null` as the record of zero values.

  function DecodeImpact(v: Value): (r: Option<ImpactJson>)
    ensures !IsStruct(v) ==> r.None?
    ensures v.Null? ==> r == Some(ImpactJson(false, false, false))
  {
    if !IsStruct(v) then None
    else
      var low :- DecodeBool(Field(v, "low"));
      var moderate :- DecodeBool(Field(v, "moderate"));
      var high :- DecodeBool(Field(v, "high"));
      Some(ImpactJson(low, moderate, high))
  }

  /** Decodes one requirement record; nested records stay raw. */
  function DecodeRequirement(v: Value): (r: Option<RequirementJson>)
    ensures r.Some? ==> r.value.followingInformation == [] && r.value.rawFollowingInfo == RawField(v, "following_information")
    ensures r.Some? ==> IsStruct(v)
  {
    if !IsStruct(v) then None
    else
      var id :- DecodeString(Field(v, "id"));
      var statement :- DecodeString(Field(v, "statement"));
      var name :- DecodeString(Field(v, "name"));
      var impact :- DecodeImpact(Field(v, "impact"));
      var affects :- DecodeStrings(Field(v, "affects"));
      var keyword :- DecodeString(Field(v, "primary_key_word"));
      var note :- DecodeString(Field(v, "note"));
      Some(RequirementJson(id, statement, name, impact, affects, keyword, note, [], RawField(v, "following_information")))
  }

  function DecodeRequirementList(v: Value): Option<seq<RequirementJson>> {
    DecodeList(v, DecodeRequirement)
  }

  function DecodeCategory(v: Value): (r: Option<RequirementCategory>)
    ensures !IsStruct(v) ==> r.None?
    ensures v.Null? ==> r == Some(RequirementCategory("", "", "", []))
  {
    if !IsStruct(v) then None
    else
      var id :- DecodeString(Field(v, "id"));
      var application :- DecodeString(Field(v, "application"));
      var name :- DecodeString(Field(v, "name"));
      var reqs :- DecodeRequirementList(Field(v, "requirements"));
      Some(RequirementCategory(id, application, name, reqs))
  }

  function DecodeDefinition(v: Value): (r: Option<DefinitionJson>)
    ensures !IsStruct(v) ==> r.None?
    ensures v.Null? ==> r == Some(DefinitionJson("", "", [], "", "", [], "", ""))
  {
    if !IsStruct(v) then None
    else
      var id :- DecodeString(Field(v, "id"));
      var term :- DecodeString(Field(v, "term"));
      var alts :- DecodeStrings(Field(v, "alts"));
      var definition :- DecodeString(Field(v, "definition"));
      var note :- DecodeString(Field(v, "note"));
      var notes :- DecodeStrings(Field(v, "notes"));
      var reference :- DecodeString(Field(v, "reference"));
      var referenceUrl :- DecodeString(Field(v, "reference_url"));
      Some(DefinitionJson(id, term, alts, definition, note, notes, reference, referenceUrl))
  }

  function DecodeControl(v: Value): (r: Option<ControlJson>)
    ensures !IsStruct(v) ==> r.None?
    ensures v.Null? ==> r == Some(ControlJson("", ""))
  {
    if !IsStruct(v) then None
    else
      var controlId :- DecodeString(Field(v, "control_id"));
      var title :- DecodeString(Field(v, "title"));
      Some(ControlJson(controlId, title))
  }

  function DecodeIndicator(v: Value): (r: Option<IndicatorJson>)
    ensures !IsStruct(v) ==> r.None?
    ensures v.Null? ==> r == Some(IndicatorJson("", "", "", ImpactJson(false, false, false), [], "", "", "", false))
  {
    if !IsStruct(v) then None
    else
      var id :- DecodeString(Field(v, "id"));
      var name :- DecodeString(Field(v, "name"));
      var statement :- DecodeString(Field(v, "statement"));
      var impact :- DecodeImpact(Field(v, "impact"));
      var controls :- DecodeList(Field(v, "controls"), DecodeControl);
      var reference :- DecodeString(Field(v, "reference"));
      var referenceUrl :- DecodeString(Field(v, "reference_url"));
      var note :- DecodeString(Field(v, "note"));
      var retired :- DecodeBool(Field(v, "retired"));
      Some(IndicatorJson(id, name, statement, impact, controls, reference, referenceUrl, note, retired))
  }

  function DecodeTheme(v: Value): (r: Option<ThemeJson>)
    ensures !IsStruct(v) ==> r.None?
    ensures v.Null? ==> r == Some(ThemeJson("", "", "", []))
  {
    if !IsStruct(v) then None
    else
      var id :- DecodeString(Field(v, "id"));
      var name :- DecodeString(Field(v, "name"));
      var theme :- DecodeString(Field(v, "theme"));
      var indicators :- DecodeList(Field(v, "indicators"), DecodeIndicator);
      Some(ThemeJson(id, name, theme, indicators))
  }

  function DecodeEffective(v: Value): (r: Option<EffectiveInfo>)
    ensures !IsStruct(v) ==> r.None?
    ensures v.Null? ==> r == Some(EffectiveInfo("", "", "", "", "", [], []))
  {
    if !IsStruct(v) then None
    else
      var applies :- DecodeString(Field(v, "is"));
      var signupUrl :- DecodeString(Field(v, "signup_url"));
      var currentStatus :- DecodeString(Field(v, "current_status"));
      var startDate :- DecodeString(Field(v, "start_date"));
      var endDate :- DecodeString(Field(v, "end_date"));
      var comments :- DecodeStrings(Field(v, "comments"));
      var warnings :- DecodeStrings(Field(v, "warnings"));
      Some(EffectiveInfo(applies, signupUrl, currentStatus, startDate, endDate, comments, warnings))
  }

  function DecodeRelatedRfc(v: Value): (r: Option<RelatedRfc>)
    ensures !IsStruct(v) ==> r.None?
    ensures v.Null? ==> r == Some(RelatedRfc("", "", "", "", "", "", ""))
  {
    if !IsStruct(v) then None
    else
      var id :- DecodeString(Field(v, "id"));
      var url :- DecodeString(Field(v, "url"));
      var discussionUrl :- DecodeString(Field(v, "discussion_url"));
      var shortName :- DecodeString(Field(v, "short_name"));
      var fullName :- DecodeString(Field(v, "full_name"));
      var startDate :- DecodeString(Field(v, "start_date"));
      var endDate :- DecodeString(Field(v, "end_date"));
      Some(RelatedRfc(id, url, discussionUrl, shortName, fullName, startDate, endDate))
  }

  function DecodeRelease(v: Value): (r: Option<Release>)
    ensures !IsStruct(v) ==> r.None?
    ensures v.Null? ==> r == Some(Release("", "", "", false, []))
  {
    if !IsStruct(v) then None
    else
      var id :- DecodeString(Field(v, "id"));
      var publishedDate :- DecodeString(Field(v, "published_date"));
      var description :- DecodeString(Field(v, "description"));
      var publicComment :- DecodeBool(Field(v, "public_comment"));
      var rfcs :- DecodeList(Field(v, "related_rfcs"), DecodeRelatedRfc);
      Some(Release(id, publishedDate, description, publicComment, rfcs))
  }

  function DecodeAuthority(v: Value): (r: Option<Authority>)
    ensures !IsStruct(v) ==> r.None?
    ensures v.Null? ==> r == Some(Authority("", "", "", "", ""))
  {
    if !IsStruct(v) then None
    else
      var reference :- DecodeString(Field(v, "reference"));
      var referenceUrl :- DecodeString(Field(v, "reference_url"));
      var description :- DecodeString(Field(v, "description"));
      var delegation :- DecodeString(Field(v, "delegation"));
      var delegationUrl :- DecodeString(Field(v, "delegation_url"));
      Some(Authority(reference, referenceUrl, description, delegation, delegationUrl))
  }

  function DecodeFrontMatter(v: Value): (r: Option<FrontMatter>)
    ensures !IsStruct(v) ==> r.None?
    ensures v.Null? ==> r == Some(FrontMatter([], "", []))
  {
    if !IsStruct(v) then None
    else
      var authority :- DecodeList(Field(v, "authority"), DecodeAuthority);
      var purpose :- DecodeString(Field(v, "purpose"));
      var outcomes :- DecodeStrings(Field(v, "expected_outcomes"));
      Some(FrontMatter(authority, purpose, outcomes))
  }

  function DecodeDocumentInfo(v: Value): (r: Option<DocumentInfo>)
    ensures !IsStruct(v) ==> r.None?
    ensures v.Null? ==> r == Some(DocumentInfo("", "", map[], [], FrontMatter([], "", [])))
  {
    if !IsStruct(v) then None
    else
      var name :- DecodeString(Field(v, "name"));
      var shortName :- DecodeString(Field(v, "short_name"));
      var effective :- DecodeMap(Field(v, "effective"), DecodeEffective);
      var releases :- DecodeList(Field(v, "releases"), DecodeRelease);
      var frontMatter :- DecodeFrontMatter(Field(v, "front_matter"));
      Some(DocumentInfo(name, shortName, effective, releases, frontMatter))
  }

  /** The anonymous `FRD` struct: its `ALL` list. */
  function DecodeFrdSection(v: Value): Option<seq<DefinitionJson>> {
    if !IsStruct(v) then None else DecodeList(Field(v, "ALL"), DecodeDefinition)
  }

  function DecodeDefinitionsDocument(v: Value): Option<DefinitionsDocument> {
    if !IsStruct(v) then None
    else
      var schema :- DecodeString(Field(v, "$schema"));
      var id :- DecodeString(Field(v, "$id"));
      var info :- DecodeDocumentInfo(Field(v, "info"));
      var all :- DecodeFrdSection(Field(v, "FRD"));
      Some(DefinitionsDocument(schema, id, info, all))
  }

  // ---- following_information ----

  /**
   * `RequirementJSON.UnmarshalFollowingInfo`: when the raw member decodes as a
   * list of requirement records it becomes `followingInformation`; an absent
   * member, or one of any other shape, leaves the record as it was.
   */
  function UnmarshalFollowingInfo(r: RequirementJson): (u: RequirementJson)
    ensures u == r.(followingInformation := u.followingInformation)
    ensures r.rawFollowingInfo.None? ==> u == r
    ensures r.rawFollowingInfo.Some? && DecodeRequirementList(r.rawFollowingInfo.value).Some? ==>
      u.followingInformation == DecodeRequirementList(r.rawFollowingInfo.value).value
    ensures r.rawFollowingInfo.Some? && DecodeRequirementList(r.rawFollowingInfo.value).None? ==> u == r
  {
    match r.rawFollowingInfo
    case None => r
    case Some(raw) =>
      match DecodeRequirementList(raw)
      case Some(reqs) => r.(followingInformation := reqs)
      case None => r
  }

  /** Resolving twice is resolving once: the raw member is never consumed. */
  lemma UnmarshalIdempotent(r: RequirementJson)
    ensures UnmarshalFollowingInfo(UnmarshalFollowingInfo(r)) == UnmarshalFollowingInfo(r)
  {
  }

  /** A list-shaped member gives its records, in order, as the nested requirements. */
  lemma UnmarshalListOrder(r: RequirementJson, items: seq<Value>)
    requires r.rawFollowingInfo == Some(Array(items))
    requires forall i :: 0 <= i < |items| ==> DecodeRequirement(items[i]).Some?
    ensures |UnmarshalFollowingInfo(r).followingInformation| == |items|
    ensures forall i :: 0 <= i < |items| ==>
      Some(UnmarshalFollowingInfo(r).followingInformation[i]) == DecodeRequirement(items[i])
  {
  }

  /** A text member (the other shape the documents use) leaves the record unchanged. */
  lemma UnmarshalTextIgnored(r: RequirementJson, text: Str)
    requires r.rawFollowingInfo == Some(String(text))
    ensures UnmarshalFollowingInfo(r) == r
  {
  }

  /** The nested records after resolution. */
  function Children(r: RequirementJson): seq<RequirementJson> {
    UnmarshalFollowingInfo(r).followingInformation
  }

  // ---- a termination measure for the requirement tree ----

  function RawSize(raw: Option<Value>): nat {
    if raw.Some? then Size(raw.value) else 0
  }

  function Weight(r: RequirementJson): nat
    decreases r
  {
    1 + RawSize(r.rawFollowingInfo) + WeightSum(r.followingInformation)
  }

  function WeightSum(rs: seq<RequirementJson>): nat
    decreases rs
  {
    if rs == [] then 0 else WeightSum(rs[..|rs| - 1]) + Weight(rs[|rs| - 1])
  }

  lemma {:induction false} WeightSumAppend(a: seq<RequirementJson>, b: seq<RequirementJson>)
    ensures WeightSum(a + b) == WeightSum(a) + WeightSum(b)
    decreases |b|
  {
    if b != [] {
      assert (a + b)[..|a + b| - 1] == a + b[..|b| - 1];
      assert (a + b)[|a + b| - 1] == b[|b| - 1];
      WeightSumAppend(a, b[..|b| - 1]);
    } else {
      assert a + b == a;
    }
  }

  /** The last record of a non-empty list carries a positive part of its weight. */
  lemma WeightSumLast(rs: seq<RequirementJson>)
    requires rs != []
    ensures WeightSum(rs) == WeightSum(rs[..|rs| - 1]) + Weight(rs[|rs| - 1])
    ensures WeightSum(rs[..|rs| - 1]) < WeightSum(rs) && Weight(rs[|rs| - 1]) <= WeightSum(rs)
  {
  }

  lemma {:induction false} WeightBound(rs: seq<RequirementJson>, i: nat)
    requires i < |rs|
    ensures Weight(rs[i]) <= WeightSum(rs)
    decreases |rs|
  {
    if i < |rs| - 1 {
      WeightBound(rs[..|rs| - 1], i);
    }
  }

  /** A decoded record weighs no more than the value it came from. */
  lemma DecodedWeight(v: Value)
    requires DecodeRequirement(v).Some?
    ensures Weight(DecodeRequirement(v).value) <= Size(v)
  {
    var raw := RawField(v, "following_information");
    if raw.Some? {
      LookupSmaller(v.members, "following_information");
    }
  }

  lemma {:induction false} DecodedItemsWeight(items: seq<Value>, reqs: seq<RequirementJson>)
    requires |reqs| == |items|
    requires forall i :: 0 <= i < |items| ==> DecodeRequirement(items[i]) == Some(reqs[i])
    ensures WeightSum(reqs) <= SizeSum(items)
    decreases |items|
  {
    if items != [] {
      var n := |items| - 1;
      DecodedItemsWeight(items[..n], reqs[..n]);
      DecodedWeight(items[n]);
    }
  }

  /** Resolving a record yields nested records strictly lighter than the record. */
  lemma ChildrenLighter(r: RequirementJson)
    ensures WeightSum(Children(r)) < Weight(r)
  {
    match r.rawFollowingInfo
    case None =>
    case Some(raw) =>
      match DecodeRequirementList(raw)
      case None =>
      case Some(reqs) =>
        if raw.Array? {
          DecodedItemsWeight(raw.items, reqs);
        }
  }

  // ---- errors of the api package ----

  datatype Error =
    | SyntaxError                       // the payload is not JSON text
    | TypeError                         // JSON text of a shape the Go type does not accept
    | ParsingRawDocument(cause: Error)  // "parsing raw document: %w"
    | KsiSectionNotFound                // "KSI section not found in document"
    | ParsingKsiThemes(cause: Error)    // "parsing KSI themes: %w"
    | TransportError(reason: Str)       // the HTTP client's own error
    | HttpStatus(statusCode: int, status: Str)// "HTTP %d: %s"
    | Fetching(docCode: Str, cause: Error)// "fetching %s: %w"
    | FetchingDocuments(errs: seq<Error>) // "errors fetching documents: %v"

  /**
   * `json.Unmarshal(data, &x)` for a Go type decoded by `dec`; `data` is the
   * parsed payload, `None` when the bytes are not JSON text.
   */
  function Unmarshal<T>(data: Option<Value>, dec: Value -> Option<T>): (r: Result<T, Error>)
    ensures data.None? <==> r == Err(SyntaxError)
    ensures r == Err(TypeError) <==> data.Some? && dec(data.value).None?
    ensures r.Ok? <==> data.Some? && dec(data.value).Some?
    ensures r.Ok? ==> dec(data.value) == Some(r.value)
  {
    match data
    case None => Err(SyntaxError)
    case Some(v) =>
      match dec(v)
      case None => Err(TypeError)
      case Some(x) => Ok(x)
  }
}
