/**
 * The list-item views of the domain records (`internal/model/listitem.go`):
 * the title, description and filter text each kind of row shows.
 */
module ListItem {
  import opened Wrappers
  import opened Text
  import opened Model

  /** The four kinds of list row: `DocumentItem`, `RequirementItem`, `DefinitionItem`, `IndicatorItem`. */
  datatype Item =
    | DocumentItem(document: Document)
    | RequirementItem(requirement: Requirement)
    | DefinitionItem(definition: Definition)
    | IndicatorItem(indicator: Indicator)

  /** `fmt.Sprintf("[%s] %s", key, rest)`. */
  function Bracketed(key: Str, rest: Str): Str {
    "[" + key + "] " + rest
  }

  /** Reads a bracketed title back into its key and the text after it. */
  function SplitBracketed(t: Str): Option<(Str, Str)> {
    if |t| == 0 || t[0] != '[' then None
    else
      var body := t[1..];
      var n := FirstIndex(body, ']');
      if n + 2 <= |body| && body[n..n + 2] == "] " then Some((body[..n], body[n + 2..])) else None
  }

  lemma BracketedRoundTrip(key: Str, rest: Str)
    ensures ']' !in key ==> SplitBracketed(Bracketed(key, rest)) == Some((key, rest))
  {
    if ']' in key {
      return;
    }
    var t := Bracketed(key, rest);
    var body := t[1..];
    assert body == key + "] " + rest;
    assert body[|key|] == ']';
    var n := FirstIndex(body, ']');
    assert forall k :: 0 <= k < |key| ==> body[k] == key[k];
    assert n == |key|;
    assert body[n..n + 2] == "] ";
    assert body[..n] == key;
    assert body[n + 2..] == rest;
  }

  /** `DocumentItem.Title`: `[CODE] Name`; a code without `]` can be read back from it. */
  function DocumentTitle(d: Document): (r: Str)
    ensures |r| == |d.code| + |d.name| + 3
    ensures ']' !in d.code ==> SplitBracketed(r) == Some((d.code, d.name))
  {
    var r := Bracketed(d.code, d.name);
    BracketedRoundTrip(d.code, d.name);
    r
  }

  /** `DocumentItem.Description`: the description, plus ` (N requirements)` when N > 0. */
  function DocumentDescription(d: Document): (r: Str)
    ensures d.requirementCount <= 0 ==> r == d.description
    ensures d.requirementCount > 0 ==>
      var n := |d.description|;
      |r| > n + 16 && r[..n] == d.description && r[n..n + 2] == " (" &&
      r[|r| - 14..] == " requirements)" &&
      r[n + 2..|r| - 14] == Decimal(d.requirementCount) &&
      DecimalValue(r[n + 2..|r| - 14]) == d.requirementCount
  {
    if d.requirementCount > 0 then
      var digits := Decimal(d.requirementCount);
      var r := d.description + " (" + digits + " requirements)";
      var n := |d.description|;
      assert r[n + 2..|r| - 14] == digits;
      DecimalRoundTrip(d.requirementCount);
      r
    else d.description
  }

  /** `DocumentItem.FilterValue`. */
  function DocumentFilterValue(d: Document): (r: Str)
    ensures r == Join([d.code, d.name, d.description], " ")
  {
    JoinThree(d.code, d.name, d.description, " ");
    d.code + " " + d.name + " " + d.description
  }

  /** `RequirementItem.Title`: `[ID] Name`; an ID without `]` can be read back from it. */
  function RequirementTitle(r: Requirement): (t: Str)
    ensures |t| == |r.id| + |r.name| + 3
    ensures t[..|r.id| + 3] == "[" + r.id + "] " && t[|r.id| + 3..] == r.name
    ensures ']' !in r.id ==> SplitBracketed(t) == Some((r.id, r.name))
  {
    var t := Bracketed(r.id, r.name);
    BracketedRoundTrip(r.id, r.name);
    t
  }

  /** The keyword column: the primary keyword, or "INFO" when it is empty. */
  function KeywordLabel(r: Requirement): (k: Str)
    ensures k != []
    ensures r.primaryKeyWord != [] ==> k == r.primaryKeyWord
    ensures r.primaryKeyWord == [] ==> k == "INFO"
  {
    if r.primaryKeyWord == "" then "INFO" else r.primaryKeyWord
  }

  /** `RequirementItem.Description`: `CODE | KEYWORD | impact`, three non-empty-keyword columns. */
  function RequirementDescription(r: Requirement): (d: Str)
    ensures d == Join([r.documentCode, KeywordLabel(r), ImpactText(r.impact)], " | ")
  {
    JoinThree(r.documentCode, KeywordLabel(r), ImpactText(r.impact), " | ");
    r.documentCode + " | " + KeywordLabel(r) + " | " + ImpactText(r.impact)
  }

  /** `RequirementItem.FilterValue`. */
  function RequirementFilterValue(r: Requirement): (f: Str)
    ensures f == Join([r.id, r.name, r.statement, r.documentCode], " ")
  {
    JoinFour(r.id, r.name, r.statement, r.documentCode, " ");
    r.id + " " + r.name + " " + r.statement + " " + r.documentCode
  }

  /** `DefinitionItem.Title`. */
  function DefinitionTitle(d: Definition): (t: Str)
    ensures t == d.term
  {
    d.term
  }

  /** `DefinitionItem.Description`: the text, cut to 97 bytes plus "..." when longer than 100. */
  method DefinitionDescription(d: Definition) returns (desc: Str)
    ensures |desc| <= 100
    ensures |d.text| <= 100 ==> desc == d.text
    ensures |d.text| > 100 ==> |desc| == 100 && desc[..97] == d.text[..97] && desc[97..] == "..."
  {
    desc := d.text;
    if |desc| > 100 {
      desc := desc[..97] + "...";
    }
  }

  /** The text `DefinitionItem.FilterValue` builds: term, text and each alternate, space-separated. */
  function DefinitionFilterText(d: Definition): Str {
    Join([d.term, d.text] + d.alts, " ")
  }

  /** `DefinitionItem.FilterValue`, accumulated alternate by alternate. */
  method DefinitionFilterValue(d: Definition) returns (result: Str)
    ensures result == DefinitionFilterText(d)
  {
    var parts := [d.term, d.text] + d.alts;
    result := d.term + " " + d.text;
    JoinTwo(d.term, d.text, " ");
    assert parts[..2] == [d.term, d.text];
    var i := 0;
    while i < |d.alts|
      invariant 0 <= i <= |d.alts|
      invariant result == Join(parts[..i + 2], " ")
    {
      assert parts[..i + 3][..i + 2] == parts[..i + 2];
      result := result + " " + d.alts[i];
      i := i + 1;
    }
    assert parts[..i + 2] == parts;
  }

  /** `IndicatorItem.Title`: the name, prefixed with "[RETIRED] " exactly when retired. */
  function IndicatorTitle(i: Indicator): (t: Str)
    ensures i.retired ==> t == "[RETIRED] " + i.name
    ensures !i.retired ==> t == i.name
  {
    (if i.retired then "[RETIRED] " else "") + i.name
  }

  /** `IndicatorItem.Description`: `Theme | impact`, plus ` | N controls` when there are controls. */
  function IndicatorDescription(i: Indicator): (d: Str)
    ensures |i.controls| == 0 ==> d == i.themeName + " | " + ImpactText(i.impact)
    ensures |i.controls| > 0 ==>
      var head := i.themeName + " | " + ImpactText(i.impact);
      |d| > |head| + 12 && d[..|head|] == head && d[|head|..|head| + 3] == " | " &&
      d[|d| - 9..] == " controls" && d[|head| + 3..|d| - 9] == Decimal(|i.controls|) &&
      DecimalValue(d[|head| + 3..|d| - 9]) == |i.controls|
  {
    var head := i.themeName + " | " + ImpactText(i.impact);
    if |i.controls| > 0 then
      var digits := Decimal(|i.controls|);
      var d := head + " | " + digits + " controls";
      assert d[|head| + 3..|d| - 9] == digits;
      DecimalRoundTrip(|i.controls|);
      d
    else head
  }

  /** `IndicatorItem.FilterValue`. */
  function IndicatorFilterValue(i: Indicator): (f: Str)
    ensures f == Join([i.id, i.name, i.statement, i.themeName], " ")
  {
    JoinFour(i.id, i.name, i.statement, i.themeName, " ");
    i.id + " " + i.name + " " + i.statement + " " + i.themeName
  }
}
