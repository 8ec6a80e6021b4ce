/**
 * `fetchData` (`internal/tui/app.go`): the command that loads everything the
 * interface shows.  It fetches the catalog, parses each fetched document
 * according to its code (FRD holds the definitions, KSI the indicators, every
 * other document requirements), counts the requirements per document and
 * builds the home list from the catalog in display order, enriched with each
 * document's `info` section.
 */
module Loader {
  import opened Wrappers
  import opened Text
  import opened Json
  import opened ApiTypes
  import opened MapOrder
  import Model
  import Catalog
  import Fetch
  import Definitions
  import Indicators
  import Requirements
  import Enrich

  /** The two messages the command can deliver. */
  datatype Msg =
    | DataLoaded(documents: seq<Model.Document>, requirements: seq<Model.Requirement>,
                 definitions: seq<Model.Definition>, indicators: seq<Model.Indicator>)
    | ErrorMsg(err: Error)

  /** The definitions kept: FRD's when it was fetched and parses, none otherwise. */
  function DefinitionsFrom(docs: map<Str, Bytes>, parse: Bytes -> Option<Value>): seq<Model.Definition> {
    if "FRD" in docs then
      match Definitions.DefinitionsOf(parse(docs["FRD"]))
      case Ok(defs) => defs
      case Err(_) => []
    else []
  }

  /** The indicators kept: KSI's, its themes visited in `themeOrder`, when it was fetched and parses. */
  function IndicatorsFrom(docs: map<Str, Bytes>, parse: Bytes -> Option<Value>, themeOrder: seq<Str>): seq<Model.Indicator> {
    if "KSI" in docs then
      match Indicators.IndicatorsOf(parse(docs["KSI"]), themeOrder)
      case Ok(inds) => inds
      case Err(_) => []
    else []
  }

  /** The order in which one document's map of categories was visited. */
  function CategoryOrder(catOrders: map<Str, seq<Str>>, code: Str): seq<Str> {
    if code in catOrders then catOrders[code] else []
  }

  /** The requirements one fetched document contributes: none for FRD, KSI or a document that does not parse. */
  function RequirementsFrom(docs: map<Str, Bytes>, parse: Bytes -> Option<Value>, catOrders: map<Str, seq<Str>>, code: Str)
    : seq<Model.Requirement>
  {
    if code in docs && code != "FRD" && code != "KSI" then
      match Requirements.RequirementsOf(parse(docs[code]), code, CategoryOrder(catOrders, code))
      case Ok(reqs) => reqs
      case Err(_) => []
    else []
  }

  function RequirementBlocks(docs: map<Str, Bytes>, parse: Bytes -> Option<Value>, catOrders: map<Str, seq<Str>>)
    : Str -> seq<Model.Requirement>
  {
    code => RequirementsFrom(docs, parse, catOrders, code)
  }

  /** All requirements, when the documents are visited in `order`. */
  function AllRequirements(docs: map<Str, Bytes>, parse: Bytes -> Option<Value>, order: seq<Str>, catOrders: map<Str, seq<Str>>)
    : seq<Model.Requirement>
  {
    ConcatMap(order, RequirementBlocks(docs, parse, catOrders))
  }

  /** Each recorded order of categories is one its document's map could have produced. */
  ghost predicate CategoryOrdersFit(docs: map<Str, Bytes>, parse: Bytes -> Option<Value>, catOrders: map<Str, seq<Str>>) {
    forall c :: c in docs && c in catOrders && Requirements.Categories(parse(docs[c]), c).Some? ==>
      IsEnumeration(catOrders[c], Requirements.Categories(parse(docs[c]), c).value.Keys)
  }

  /** The recorded order of themes is one KSI's map of themes could have produced. */
  ghost predicate ThemeOrderFits(docs: map<Str, Bytes>, parse: Bytes -> Option<Value>, themeOrder: seq<Str>) {
    "KSI" in docs && Indicators.ThemesOf(parse(docs["KSI"])).Ok? ==>
      IsEnumeration(themeOrder, Indicators.ThemesOf(parse(docs["KSI"])).value.Keys)
  }

  ghost predicate OrdersFit(docs: map<Str, Bytes>, parse: Bytes -> Option<Value>, catOrders: map<Str, seq<Str>>, themeOrder: seq<Str>) {
    CategoryOrdersFit(docs, parse, catOrders) && ThemeOrderFits(docs, parse, themeOrder)
  }

  function DocumentCodeOf(r: Model.Requirement): Str {
    r.documentCode
  }

  /** How many of the requirements carry `code`: the `reqCounts` entry, zero when absent. */
  function CountIn(reqs: seq<Model.Requirement>, code: Str): nat {
    |Select(reqs, DocumentCodeOf, code)|
  }

  function CountOf(counts: map<Str, int>, code: Str): int {
    if code in counts then counts[code] else 0
  }

  /** The `info` section of a fetched document, when it parses. */
  function InfoOf(docs: map<Str, Bytes>, parse: Bytes -> Option<Value>, code: Str): Option<DocumentInfo> {
    if code in docs then
      match Enrich.ParseDocumentInfo(parse(docs[code]))
      case Ok(info) => Some(info)
      case Err(_) => None
    else None
  }

  /** A catalog entry after the counting and enrichment loop. */
  function Counted(d: Model.Document, docs: map<Str, Bytes>, parse: Bytes -> Option<Value>, reqs: seq<Model.Requirement>)
    : Model.Document
  {
    Enrich.Enriched(d.(requirementCount := CountIn(reqs, d.code)), InfoOf(docs, parse, d.code))
  }

  /** FRD counts its definitions and KSI its indicators; any other entry keeps its count. */
  function Override(e: Model.Document, nDefs: nat, nInds: nat): (r: Model.Document)
    ensures r.(requirementCount := e.requirementCount) == e
    ensures r.requirementCount == if e.code == "FRD" then nDefs else if e.code == "KSI" then nInds else e.requirementCount
  {
    if e.code == "FRD" then e.(requirementCount := nDefs)
    else if e.code == "KSI" then e.(requirementCount := nInds)
    else e
  }

  /** A catalog entry as listed. */
  function Entry(d: Model.Document, docs: map<Str, Bytes>, parse: Bytes -> Option<Value>, reqs: seq<Model.Requirement>,
                 nDefs: nat, nInds: nat): Model.Document
  {
    Override(Counted(d, docs, parse, reqs), nDefs, nInds)
  }

  /** The home list: one entry per catalog document, in display order. */
  function Listing(docs: map<Str, Bytes>, parse: Bytes -> Option<Value>, reqs: seq<Model.Requirement>, nDefs: nat, nInds: nat)
    : (r: seq<Model.Document>)
    ensures |r| == |Catalog.DocumentOrder|
  {
    var meta := Catalog.Metadata();
    seq(|meta|, i requires 0 <= i < |meta| => Entry(meta[i], docs, parse, reqs, nDefs, nInds))
  }

  /** The message delivered for the fetched documents, visited in `order`. */
  function Loaded(docs: map<Str, Bytes>, parse: Bytes -> Option<Value>, order: seq<Str>,
                  catOrders: map<Str, seq<Str>>, themeOrder: seq<Str>): (m: Msg)
    ensures m.DataLoaded? && |m.documents| == |Catalog.DocumentOrder|
  {
    var reqs := AllRequirements(docs, parse, order, catOrders);
    var defs := DefinitionsFrom(docs, parse);
    var inds := IndicatorsFrom(docs, parse, themeOrder);
    DataLoaded(Listing(docs, parse, reqs, |defs|, |inds|), reqs, defs, inds)
  }

  // ---- properties of the load ----

  /** Every requirement a document contributes carries that document's code. */
  lemma BlocksStamped(docs: map<Str, Bytes>, parse: Bytes -> Option<Value>, catOrders: map<Str, seq<Str>>)
    ensures forall key, i :: 0 <= i < |RequirementBlocks(docs, parse, catOrders)(key)| ==>
      DocumentCodeOf(RequirementBlocks(docs, parse, catOrders)(key)[i]) == key
  {
    forall key, i | 0 <= i < |RequirementBlocks(docs, parse, catOrders)(key)|
      ensures DocumentCodeOf(RequirementBlocks(docs, parse, catOrders)(key)[i]) == key
    {
      Requirements.RequirementsStamped(parse(docs[key]), key, CategoryOrder(catOrders, key), i);
    }
  }

  /**
   * The requirements of each document are found among all requirements in
   * their own order, whatever order the documents were visited in: those
   * carrying its code are exactly the ones its document parsed to.
   */
  lemma {:induction false} RequirementsPerDocument(docs: map<Str, Bytes>, parse: Bytes -> Option<Value>, order: seq<Str>,
                                                   catOrders: map<Str, seq<Str>>, code: Str)
    requires IsEnumeration(order, docs.Keys)
    ensures Select(AllRequirements(docs, parse, order, catOrders), DocumentCodeOf, code) ==
      RequirementsFrom(docs, parse, catOrders, code)
  {
    BlocksStamped(docs, parse, catOrders);
    SelectConcatMap(order, RequirementBlocks(docs, parse, catOrders), DocumentCodeOf, code);
  }

  /** No requirement comes from FRD, from KSI or from a document that was not fetched. */
  lemma RequirementSources(docs: map<Str, Bytes>, parse: Bytes -> Option<Value>, order: seq<Str>,
                           catOrders: map<Str, seq<Str>>, code: Str)
    requires IsEnumeration(order, docs.Keys)
    requires code !in docs || code == "FRD" || code == "KSI"
    ensures forall r :: r in AllRequirements(docs, parse, order, catOrders) ==> r.documentCode != code
  {
    RequirementsPerDocument(docs, parse, order, catOrders, code);
    forall r | r in AllRequirements(docs, parse, order, catOrders)
      ensures r.documentCode != code
    {
      if r.documentCode == code {
        SelectHas(AllRequirements(docs, parse, order, catOrders), r, code);
      }
    }
  }

  lemma {:induction false} SelectHas(s: seq<Model.Requirement>, r: Model.Requirement, code: Str)
    requires r in s && r.documentCode == code
    ensures Select(s, DocumentCodeOf, code) != []
    decreases |s|
  {
    var n := |s| - 1;
    SelectSnoc(s[..n], s[n], DocumentCodeOf, code);
    assert s == s[..n] + [s[n]];
    if s[n] != r {
      SelectHas(s[..n], r, code);
    }
  }

  /**
   * The home list entry at position `i`: the catalog document at that
   * position of the display order, with its catalog name, the count of its
   * definitions (FRD), its indicators (KSI) or its requirements, and the
   * purpose from its `info` section when that parses.
   */
  lemma LoadedEntry(docs: map<Str, Bytes>, parse: Bytes -> Option<Value>, order: seq<Str>,
                    catOrders: map<Str, seq<Str>>, themeOrder: seq<Str>, i: nat)
    requires IsEnumeration(order, docs.Keys)
    requires i < |Catalog.DocumentOrder|
    ensures var m := Loaded(docs, parse, order, catOrders, themeOrder);
      var code := Catalog.DocumentOrder[i];
      var info := InfoOf(docs, parse, code);
      m.documents[i].code == code &&
      m.documents[i].name == Catalog.DocumentFiles[code].name &&
      m.documents[i].requirementCount ==
        (if code == "FRD" then |m.definitions|
         else if code == "KSI" then |m.indicators|
         else |RequirementsFrom(docs, parse, catOrders, code)|) &&
      m.documents[i].purpose == (if info.Some? then info.value.frontMatter.purpose else "")
  {
    var code := Catalog.DocumentOrder[i];
    Catalog.MetadataCodes();
    RequirementsPerDocument(docs, parse, order, catOrders, code);
  }

  /** The home list and the definitions do not depend on the order the documents were visited in, the requirements only up to permutation. */
  lemma {:induction false} LoadOrderIndependent(docs: map<Str, Bytes>, parse: Bytes -> Option<Value>, o1: seq<Str>, o2: seq<Str>,
                                                catOrders: map<Str, seq<Str>>, themeOrder: seq<Str>)
    requires IsEnumeration(o1, docs.Keys) && IsEnumeration(o2, docs.Keys)
    ensures var m1 := Loaded(docs, parse, o1, catOrders, themeOrder);
      var m2 := Loaded(docs, parse, o2, catOrders, themeOrder);
      m1.documents == m2.documents && m1.definitions == m2.definitions && m1.indicators == m2.indicators &&
      multiset(m1.requirements) == multiset(m2.requirements)
  {
    var r1 := AllRequirements(docs, parse, o1, catOrders);
    var r2 := AllRequirements(docs, parse, o2, catOrders);
    forall c
      ensures CountIn(r1, c) == CountIn(r2, c)
    {
      RequirementsPerDocument(docs, parse, o1, catOrders, c);
      RequirementsPerDocument(docs, parse, o2, catOrders, c);
    }
    EnumerationsPermute(o1, o2, docs.Keys);
    ConcatMapPermutation(o1, o2, RequirementBlocks(docs, parse, catOrders));
    ListingByCounts(docs, parse, r1, r2, |DefinitionsFrom(docs, parse)|, |IndicatorsFrom(docs, parse, themeOrder)|);
  }

  /** The home list depends on the requirements only through each document's count. */
  lemma ListingByCounts(docs: map<Str, Bytes>, parse: Bytes -> Option<Value>, r1: seq<Model.Requirement>,
                        r2: seq<Model.Requirement>, nDefs: nat, nInds: nat)
    requires forall c :: CountIn(r1, c) == CountIn(r2, c)
    ensures Listing(docs, parse, r1, nDefs, nInds) == Listing(docs, parse, r2, nDefs, nInds)
  {
    var l1, l2 := Listing(docs, parse, r1, nDefs, nInds), Listing(docs, parse, r2, nDefs, nInds);
    forall i | 0 <= i < |l1|
      ensures l1[i] == l2[i]
    {
      var d := Catalog.Metadata()[i];
      assert CountIn(r1, d.code) == CountIn(r2, d.code);
    }
  }

  // ---- the command ----

  /**
   * `fetchData`.  `parse` is the JSON parser, `None` for text that is not
   * JSON.  Any failed fetch turns the whole load into the aggregated error;
   * otherwise the message is `Loaded` for the orders in which the maps were
   * visited.
   */
  method FetchData(client: Fetch.Client, parse: Bytes -> Option<Value>)
    returns (msg: Msg, ghost fetchOrder: seq<Str>, ghost order: seq<Str>,
             ghost catOrders: map<Str, seq<Str>>, ghost themeOrder: seq<Str>)
    modifies client
    ensures IsEnumeration(fetchOrder, Catalog.DocumentFiles.Keys)
    ensures Fetch.CacheAfter(client.Cfg(), client.services, old(client.cache), client.cache, Catalog.DocumentFiles.Keys)
    ensures var failure := Fetch.Aggregate(Fetch.Failures(client.Cfg(), client.services, old(client.cache), fetchOrder));
      failure.Some? ==> msg == ErrorMsg(failure.value)
    ensures var failure := Fetch.Aggregate(Fetch.Failures(client.Cfg(), client.services, old(client.cache), fetchOrder));
      var docs := Fetch.Successes(client.Cfg(), client.services, old(client.cache));
      failure.None? ==>
        IsEnumeration(order, docs.Keys) && OrdersFit(docs, parse, catOrders, themeOrder) &&
        msg == Loaded(docs, parse, order, catOrders, themeOrder)
  {
    var docs, err;
    docs, err, fetchOrder := client.FetchAllDocuments();
    order, catOrders, themeOrder := [], map[], [];
    if err.Some? {
      return ErrorMsg(err.value), fetchOrder, order, catOrders, themeOrder;
    }
    var allRequirements, definitions, indicators;
    allRequirements, definitions, indicators, order, catOrders, themeOrder := ParseAll(docs, parse);
    var reqCounts := CountRequirements(allRequirements);
    var documents := BuildDocuments(docs, parse, reqCounts, |definitions|, |indicators|, allRequirements);
    msg := DataLoaded(documents, allRequirements, definitions, indicators);
  }

  /** `order` lists the codes visited so far, once each; `remaining` the others. */
  ghost predicate Visited(docs: map<Str, Bytes>, order: seq<Str>, remaining: set<Str>) {
    remaining <= docs.Keys &&
    Distinct(order) &&
    (forall k :: k in order <==> k in docs && k !in remaining)
  }

  /** The loop over the fetched documents, in whatever order the map yields its codes. */
  method ParseAll(docs: map<Str, Bytes>, parse: Bytes -> Option<Value>)
    returns (allRequirements: seq<Model.Requirement>, definitions: seq<Model.Definition>, indicators: seq<Model.Indicator>,
             ghost order: seq<Str>, ghost catOrders: map<Str, seq<Str>>, ghost themeOrder: seq<Str>)
    ensures IsEnumeration(order, docs.Keys)
    ensures OrdersFit(docs, parse, catOrders, themeOrder)
    ensures allRequirements == AllRequirements(docs, parse, order, catOrders)
    ensures definitions == DefinitionsFrom(docs, parse)
    ensures indicators == IndicatorsFrom(docs, parse, themeOrder)
  {
    allRequirements, definitions, indicators := [], [], [];
    order, catOrders, themeOrder := [], map[], [];
    var remaining := docs.Keys;
    while remaining != {}
      invariant Visited(docs, order, remaining)
      invariant allRequirements == AllRequirements(docs, parse, order, catOrders)
      invariant definitions == if "FRD" in order then DefinitionsFrom(docs, parse) else []
      invariant indicators == if "KSI" in order then IndicatorsFrom(docs, parse, themeOrder) else []
      invariant CategoryOrdersFit(docs, parse, catOrders)
      invariant "KSI" in order ==> ThemeOrderFits(docs, parse, themeOrder)
      decreases remaining
    {
      var code :| code in remaining;
      VisitStep(docs, order, remaining, code);
      var data := parse(docs[code]);
      if code == "FRD" {
        var defs := Definitions.ParseDefinitions(data);
        RequirementsSkip(docs, parse, order, catOrders, code);
        if defs.Ok? {
          definitions := defs.value;
        }
      } else if code == "KSI" {
        var inds;
        ghost var themes;
        inds, themes := Indicators.ParseIndicators(data);
        RequirementsSkip(docs, parse, order, catOrders, code);
        themeOrder := themes;
        if inds.Ok? {
          indicators := inds.value;
        }
      } else {
        var reqs;
        ghost var cats;
        reqs, cats := Requirements.ParseRequirements(data, code);
        RequirementsStep(docs, parse, order, catOrders, code, cats);
        CategoriesFit(docs, parse, catOrders, code, cats);
        catOrders := catOrders[code := cats];
        if reqs.Ok? {
          allRequirements := allRequirements + reqs.value;
        }
      }
      order := order + [code];
      remaining := remaining - {code};
    }
  }

  lemma VisitStep(docs: map<Str, Bytes>, order: seq<Str>, remaining: set<Str>, code: Str)
    requires Visited(docs, order, remaining) && code in remaining
    ensures code !in order
    ensures Visited(docs, order + [code], remaining - {code})
  {
    assert forall k :: k in order + [code] <==> k in order || k == code;
  }

  /** Visiting FRD or KSI adds no requirements. */
  lemma RequirementsSkip(docs: map<Str, Bytes>, parse: Bytes -> Option<Value>, order: seq<Str>,
                         catOrders: map<Str, seq<Str>>, code: Str)
    requires code == "FRD" || code == "KSI"
    ensures AllRequirements(docs, parse, order + [code], catOrders) == AllRequirements(docs, parse, order, catOrders)
  {
    assert (order + [code])[..|order|] == order;
    assert RequirementsFrom(docs, parse, catOrders, code) == [];
  }

  /** Visiting any other code appends what its document parses to. */
  lemma RequirementsStep(docs: map<Str, Bytes>, parse: Bytes -> Option<Value>, order: seq<Str>,
                         catOrders: map<Str, seq<Str>>, code: Str, cats: seq<Str>)
    requires code in docs && code !in order && code != "FRD" && code != "KSI"
    ensures var r := Requirements.RequirementsOf(parse(docs[code]), code, cats);
      AllRequirements(docs, parse, order + [code], catOrders[code := cats]) ==
      AllRequirements(docs, parse, order, catOrders) + (if r.Ok? then r.value else [])
  {
    var f := RequirementBlocks(docs, parse, catOrders);
    var g := RequirementBlocks(docs, parse, catOrders[code := cats]);
    assert forall k :: k in order ==> CategoryOrder(catOrders, k) == CategoryOrder(catOrders[code := cats], k);
    ConcatMapAgree(order, f, g);
    assert (order + [code])[..|order|] == order;
  }

  lemma CategoriesFit(docs: map<Str, Bytes>, parse: Bytes -> Option<Value>, catOrders: map<Str, seq<Str>>,
                      code: Str, cats: seq<Str>)
    requires CategoryOrdersFit(docs, parse, catOrders) && code in docs
    requires Requirements.Categories(parse(docs[code]), code).Some? ==>
      IsEnumeration(cats, Requirements.Categories(parse(docs[code]), code).value.Keys)
    ensures CategoryOrdersFit(docs, parse, catOrders[code := cats])
  {
  }

  /** The loop over all requirements, counting them per document code. */
  method CountRequirements(reqs: seq<Model.Requirement>) returns (counts: map<Str, int>)
    ensures forall c :: CountOf(counts, c) == CountIn(reqs, c)
  {
    counts := map[];
    for i := 0 to |reqs|
      invariant forall c :: CountOf(counts, c) == CountIn(reqs[..i], c)
    {
      var r := reqs[i];
      CountStep(counts, reqs, i, counts[r.documentCode := CountOf(counts, r.documentCode) + 1]);
      counts := counts[r.documentCode := CountOf(counts, r.documentCode) + 1];
    }
    assert reqs[..|reqs|] == reqs;
  }

  lemma CountStep(counts: map<Str, int>, reqs: seq<Model.Requirement>, i: nat, next: map<Str, int>)
    requires i < |reqs|
    requires forall c :: CountOf(counts, c) == CountIn(reqs[..i], c)
    requires next == counts[reqs[i].documentCode := CountOf(counts, reqs[i].documentCode) + 1]
    ensures forall c :: CountOf(next, c) == CountIn(reqs[..i + 1], c)
  {
    var r := reqs[i];
    assert reqs[..i + 1] == reqs[..i] + [r];
    forall c
      ensures CountOf(next, c) == CountIn(reqs[..i + 1], c)
    {
      SelectSnoc(reqs[..i], r, DocumentCodeOf, c);
      if c == r.documentCode {
        assert CountOf(next, c) == CountOf(counts, c) + 1;
      } else {
        assert CountOf(next, c) == CountOf(counts, c);
      }
    }
  }

  /**
   * The catalog in display order with counts and `info` filled in, updated
   * in place, then the FRD and KSI counts overwritten.
   */
  method BuildDocuments(docs: map<Str, Bytes>, parse: Bytes -> Option<Value>, reqCounts: map<Str, int>,
                        nDefs: nat, nInds: nat, ghost reqs: seq<Model.Requirement>)
    returns (documents: seq<Model.Document>)
    requires forall c :: CountOf(reqCounts, c) == CountIn(reqs, c)
    ensures documents == Listing(docs, parse, reqs, nDefs, nInds)
  {
    var meta := Catalog.GetDocumentMetadata();
    var arr := new Model.Document[|meta|](i requires 0 <= i < |meta| => meta[i]);
    CountAndEnrich(arr, docs, parse, reqCounts, reqs, meta);
    OverrideCounts(arr, nDefs, nInds, arr[..]);
    documents := arr[..];
  }

  /** The loop setting each entry's count and enriching it with its document's `info`. */
  method CountAndEnrich(arr: array<Model.Document>, docs: map<Str, Bytes>, parse: Bytes -> Option<Value>,
                        reqCounts: map<Str, int>, ghost reqs: seq<Model.Requirement>, ghost meta: seq<Model.Document>)
    requires arr.Length == |meta| && forall j :: 0 <= j < arr.Length ==> arr[j] == meta[j]
    requires forall c :: CountOf(reqCounts, c) == CountIn(reqs, c)
    modifies arr
    ensures forall j :: 0 <= j < arr.Length ==> arr[j] == Counted(meta[j], docs, parse, reqs)
  {
    for i := 0 to arr.Length
      invariant forall j :: 0 <= j < i ==> arr[j] == Counted(meta[j], docs, parse, reqs)
      invariant forall j :: i <= j < arr.Length ==> arr[j] == meta[j]
    {
      CountAndEnrichAt(arr, i, docs, parse, reqCounts, reqs);
    }
  }

  /** One step of the counting and enrichment loop: element `i` becomes `Counted`, the others stay. */
  method CountAndEnrichAt(arr: array<Model.Document>, i: nat, docs: map<Str, Bytes>, parse: Bytes -> Option<Value>,
                          reqCounts: map<Str, int>, ghost reqs: seq<Model.Requirement>)
    requires i < arr.Length
    requires forall c :: CountOf(reqCounts, c) == CountIn(reqs, c)
    modifies arr
    ensures arr[i] == Counted(old(arr[i]), docs, parse, reqs)
    ensures forall j :: 0 <= j < arr.Length && j != i ==> arr[j] == old(arr[j])
  {
    arr[i] := arr[i].(requirementCount := CountOf(reqCounts, arr[i].code));
    var code := arr[i].code;
    if code in docs {
      var info := Enrich.ParseDocumentInfo(parse(docs[code]));
      if info.Ok? {
        Enrich.EnrichDocument(arr, i, Some(info.value));
      }
    }
  }

  /** The loop overwriting the FRD and KSI counts. */
  method OverrideCounts(arr: array<Model.Document>, nDefs: nat, nInds: nat, ghost before: seq<Model.Document>)
    requires arr.Length == |before| && forall j :: 0 <= j < arr.Length ==> arr[j] == before[j]
    modifies arr
    ensures forall j :: 0 <= j < arr.Length ==> arr[j] == Override(before[j], nDefs, nInds)
  {
    for i := 0 to arr.Length
      invariant forall j :: 0 <= j < i ==> arr[j] == Override(before[j], nDefs, nInds)
      invariant forall j :: i <= j < arr.Length ==> arr[j] == before[j]
    {
      if arr[i].code == "FRD" {
        arr[i] := arr[i].(requirementCount := nDefs);
      } else if arr[i].code == "KSI" {
        arr[i] := arr[i].(requirementCount := nInds);
      }
    }
  }
}
