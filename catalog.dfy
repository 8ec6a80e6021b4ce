/**
 * The document catalog of `internal/api/client.go`: the twelve FedRAMP
 * documents with their file names, the order the home list shows them in,
 * and `GetDocumentMetadata`, which turns that order into bare documents.
 */
module Catalog {
  import opened Text
  import opened MapOrder
  import Model

  const BaseUrl: Str := "https://raw.githubusercontent.com/FedRAMP/docs/main/data"

  /**
   * A catalog entry.  Every file of the catalog is named
   * `FRMR.<code>.<slug>.json`, so the entry keeps the slug and `Filename`
   * spells the name out.
   */
  datatype DocumentMetadata = DocumentMetadata(code: Str, name: Str, description: Str, slug: Str)

  function Filename(m: DocumentMetadata): (f: Str)
    ensures |f| == |m.code| + |m.slug| + 11
    ensures f[..5] == "FRMR." && f[5..5 + |m.code|] == m.code && f[|f| - 5..] == ".json"
  {
    "FRMR." + m.code + "." + m.slug + ".json"
  }

  /** `DocumentFiles`: code to metadata. */
  const DocumentFiles: map<Str, DocumentMetadata> := map[
    "FRD" := DocumentMetadata("FRD", "FedRAMP Definitions", "Terms and definitions",
      "fedramp-definitions"),
    "KSI" := DocumentMetadata("KSI", "Key Security Indicators", "Security indicators with control mappings",
      "key-security-indicators"),
    "VDR" := DocumentMetadata("VDR", "Vulnerability Detection & Response", "Vulnerability management requirements",
      "vulnerability-detection-and-response"),
    "UCM" := DocumentMetadata("UCM", "Using Cryptographic Modules", "Cryptographic module requirements",
      "using-cryptographic-modules"),
    "RSC" := DocumentMetadata("RSC", "Recommended Secure Configuration", "Secure configuration requirements",
      "recommended-secure-configuration"),
    "ADS" := DocumentMetadata("ADS", "Authorization Data Sharing", "Data sharing requirements",
      "authorization-data-sharing"),
    "CCM" := DocumentMetadata("CCM", "Collaborative Continuous Monitoring", "Continuous monitoring requirements",
      "collaborative-continuous-monitoring"),
    "FSI" := DocumentMetadata("FSI", "FedRAMP Security Inbox", "Security inbox procedures",
      "fedramp-security-inbox"),
    "ICP" := DocumentMetadata("ICP", "Incident Communications Procedures", "Incident communication requirements",
      "incident-communications-procedures"),
    "MAS" := DocumentMetadata("MAS", "Minimum Assessment Scope", "Assessment scope requirements",
      "minimum-assessment-scope"),
    "PVA" := DocumentMetadata("PVA", "Persistent Validation & Assessment", "Validation and assessment requirements",
      "persistent-validation-and-assessment"),
    "SCN" := DocumentMetadata("SCN", "Significant Change Notifications", "Change notification requirements",
      "significant-change-notifications")
  ]

  /** `DocumentOrder`: the display order. */
  const DocumentOrder: seq<Str> := ["FRD", "KSI", "VDR", "UCM", "RSC", "ADS", "CCM", "FSI", "ICP", "MAS", "PVA", "SCN"]

  /** The metadata of a code; Go's lookup of a missing key gives the zero value. */
  function Meta(code: Str): DocumentMetadata {
    if code in DocumentFiles then DocumentFiles[code] else DocumentMetadata("", "", "", "")
  }

  /** The bare document of a catalog code: name and description, no count, no metadata. */
  function Bare(code: Str): Model.Document {
    var meta := Meta(code);
    Model.Document(meta.code, meta.name, meta.description, 0, "", [], [], [], map[])
  }

  /** The documents `GetDocumentMetadata` returns: one bare document per code, in display order. */
  function Metadata(): (docs: seq<Model.Document>)
    ensures |docs| == |DocumentOrder|
    ensures forall i :: 0 <= i < |docs| ==> docs[i] == Bare(DocumentOrder[i])
  {
    seq(|DocumentOrder|, i requires 0 <= i < |DocumentOrder| => Bare(DocumentOrder[i]))
  }

  /** `GetDocumentMetadata`: the loop over `DocumentOrder`. */
  method GetDocumentMetadata() returns (docs: seq<Model.Document>)
    ensures docs == Metadata()
  {
    docs := [];
    for i := 0 to |DocumentOrder|
      invariant docs == Metadata()[..i]
    {
      var code := DocumentOrder[i];
      var meta := Meta(code);
      docs := docs + [Model.Document(meta.code, meta.name, meta.description, 0, "", [], [], [], map[])];
    }
  }

  // ---- properties of the catalog ----

  /** Every entry is filed under its own code. */
  lemma CodesMatch()
    ensures forall c :: c in DocumentFiles ==> DocumentFiles[c].code == c
  {
  }

  /** The display order lists every catalog code exactly once. */
  lemma OrderIsCatalog()
    ensures IsEnumeration(DocumentOrder, DocumentFiles.Keys)
  {
    forall k | k in DocumentFiles.Keys
      ensures k in DocumentOrder
    {
      assert k in {"FRD", "KSI", "VDR", "UCM", "RSC", "ADS", "CCM", "FSI", "ICP", "MAS", "PVA", "SCN"};
    }
  }

  /** Every catalog code is three bytes long. */
  lemma CodeLengths()
    ensures forall c :: c in DocumentFiles ==> |c| == 3
  {
  }

  /** A file name carries its code at bytes 5 to 8. */
  lemma FilenameCarriesCode(m: DocumentMetadata)
    requires |m.code| == 3
    ensures Filename(m)[5..8] == m.code
  {
    assert Filename(m) == "FRMR." + m.code + ("." + m.slug + ".json");
  }

  /** Two codes never share a file, so they never share a URL. */
  lemma FilenamesDistinct(c1: Str, c2: Str)
    requires c1 in DocumentFiles && c2 in DocumentFiles && c1 != c2
    ensures Filename(DocumentFiles[c1]) != Filename(DocumentFiles[c2])
  {
    CodesMatch();
    CodeLengths();
    FilenameCarriesCode(DocumentFiles[c1]);
    FilenameCarriesCode(DocumentFiles[c2]);
  }

  /** The home list shows every catalog code once, in display order, with the catalog's name. */
  lemma MetadataCodes()
    ensures forall i :: 0 <= i < |Metadata()| ==>
      Metadata()[i].code == DocumentOrder[i] && Metadata()[i].name == DocumentFiles[DocumentOrder[i]].name &&
      Metadata()[i].requirementCount == 0
  {
    CodesMatch();
  }
}
