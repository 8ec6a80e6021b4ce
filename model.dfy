/**
 * The domain records of `internal/model` (document, requirement, definition,
 * indicator) and the behaviour of `Impact.String`, `IsMust` and `IsShould`.
 */
module Model {
  import opened Text

  /** Impact levels; the three flags are independent. */
  datatype Impact = Impact(low: bool, moderate: bool, high: bool)

  datatype Requirement = Requirement(
    id: Str,
    documentCode: Str,
    statement: Str,
    name: Str,
    impact: Impact,
    affects: seq<Str>,
    primaryKeyWord: Str,
    note: Str)

  datatype Definition = Definition(
    id: Str,
    term: Str,
    alts: seq<Str>,
    text: Str,
    note: Str,
    reference: Str,
    referenceUrl: Str)

  datatype Control = Control(controlId: Str, title: Str)

  datatype Indicator = Indicator(
    id: Str,
    themeCode: Str,
    themeName: Str,
    themeDesc: Str,
    name: Str,
    statement: Str,
    impact: Impact,
    controls: seq<Control>,
    reference: Str,
    referenceUrl: Str,
    note: Str,
    retired: bool)

  datatype Authority = Authority(reference: Str, referenceUrl: Str, description: Str)

  datatype Release = Release(id: Str, publishedDate: Str, description: Str)

  datatype EffectiveStatus = EffectiveStatus(
    applies: Str,  // the Go field `Is`
    currentStatus: Str,
    startDate: Str,
    endDate: Str,
    signupUrl: Str,
    comments: seq<Str>)

  /** A catalog entry with the metadata copied from its document's `info` section. */
  datatype Document = Document(
    code: Str,
    name: Str,
    description: Str,
    requirementCount: int,
    purpose: Str,
    expectedOutcomes: seq<Str>,
    authority: seq<Authority>,
    releases: seq<Release>,
    effectiveInfo: map<Str, EffectiveStatus>)

  function FlagCount(i: Impact): nat {
    (if i.low then 1 else 0) + (if i.moderate then 1 else 0) + (if i.high then 1 else 0)
  }

  /** The names of the set flags, in the fixed order Low, Moderate, High. */
  function Levels(i: Impact): (ls: seq<Str>)
    ensures |ls| == FlagCount(i)
    ensures forall k :: 0 <= k < |ls| ==> ls[k] != []
  {
    (if i.low then ["Low"] else []) +
    (if i.moderate then ["Moderate"] else []) +
    (if i.high then ["High"] else [])
  }

  /** What `Impact.String` returns: the set levels joined by ", ", or "N/A". */
  function ImpactText(i: Impact): Str {
    var ls := Levels(i);
    if |ls| == 0 then "N/A" else Join(ls, ", ")
  }

  /** `Impact.String`, built the way the source builds it. */
  method ImpactString(i: Impact) returns (s: Str)
    ensures s == ImpactText(i)
  {
    var levels: seq<Str> := [];
    if i.low {
      levels := levels + ["Low"];
    }
    if i.moderate {
      levels := levels + ["Moderate"];
    }
    if i.high {
      levels := levels + ["High"];
    }
    assert levels == Levels(i);
    if |levels| == 0 {
      return "N/A";
    }
    s := levels[0];
    var k := 1;
    while k < |levels|
      invariant 1 <= k <= |levels|
      invariant s == Join(levels[..k], ", ")
    {
      assert levels[..k + 1][..k] == levels[..k];
      s := s + ", " + levels[k];
      k := k + 1;
    }
    assert levels[..k] == levels;
  }

  lemma {:induction false} JoinStartsWithFirst(parts: seq<Str>, sep: Str)
    requires |parts| > 0 && parts[0] != []
    ensures |Join(parts, sep)| > 0 && Join(parts, sep)[0] == parts[0][0]
    decreases |parts|
  {
    if |parts| > 1 {
      JoinStartsWithFirst(parts[..|parts| - 1], sep);
    }
  }

  /** "N/A" is returned exactly when no flag is set, and the text is never empty. */
  lemma ImpactTextNotApplicable(i: Impact)
    ensures ImpactText(i) != []
    ensures ImpactText(i) == "N/A" <==> FlagCount(i) == 0
  {
    var ls := Levels(i);
    if |ls| > 0 {
      JoinStartsWithFirst(ls, ", ");
      assert ls[0][0] != 'N';
    }
  }

  lemma ImpactTextAllLevels()
    ensures ImpactText(Impact(true, true, true)) == "Low, Moderate, High"
  {
    assert Levels(Impact(true, true, true)) == ["Low", "Moderate", "High"];
    JoinThree("Low", "Moderate", "High", ", ");
    assert "Low" + ", " + "Moderate" + ", " + "High" == "Low, Moderate, High";
  }

  /** Different flag sets never render alike: the text determines the flags. */
  lemma {:induction false} ImpactTextInjective(a: Impact, b: Impact)
    requires ImpactText(a) == ImpactText(b)
    ensures a == b
  {
    ImpactTextTable(a);
    ImpactTextTable(b);
  }

  lemma ImpactTextTable(i: Impact)
    ensures ImpactText(i) == match i
      case Impact(false, false, false) => "N/A"
      case Impact(true, false, false) => "Low"
      case Impact(false, true, false) => "Moderate"
      case Impact(false, false, true) => "High"
      case Impact(true, true, false) => "Low, Moderate"
      case Impact(true, false, true) => "Low, High"
      case Impact(false, true, true) => "Moderate, High"
      case Impact(true, true, true) => "Low, Moderate, High"
  {
    var ls := Levels(i);
    if |ls| == 2 {
      JoinTwo(ls[0], ls[1], ", ");
      assert ls == [ls[0], ls[1]];
    } else if |ls| == 3 {
      ImpactTextAllLevels();
    }
  }

  predicate IsMust(r: Requirement) {
    r.primaryKeyWord == "MUST"
  }

  predicate IsShould(r: Requirement) {
    r.primaryKeyWord == "SHOULD"
  }

  lemma MustExcludesShould(r: Requirement)
    ensures !(IsMust(r) && IsShould(r))
    ensures IsMust(r) ==> r.primaryKeyWord == "MUST"
    ensures IsShould(r) ==> r.primaryKeyWord == "SHOULD"
  {
  }
}
