/**
 * `Client.ParseIndicators` (`internal/api/client.go`): the key security
 * indicators of the `KSI` section, theme by theme.  The themes are a Go map,
 * so the model is stated for every order in which they can be visited.
 */
module Indicators {
  import opened Wrappers
  import opened Text
  import opened Json
  import opened ApiTypes
  import opened MapOrder
  import Model

  function ToControl(c: ControlJson): Model.Control {
    Model.Control(c.controlId, c.title)
  }

  /** The controls of an indicator, position by position. */
  function ControlsOf(cs: seq<ControlJson>): (r: seq<Model.Control>)
    ensures |r| == |cs|
    ensures forall j :: 0 <= j < |cs| ==> r[j] == ToControl(cs[j])
  {
    seq(|cs|, j requires 0 <= j < |cs| => ToControl(cs[j]))
  }

  /** One indicator, stamped with the code, name and description of its theme. */
  function ToIndicator(themeCode: Str, theme: ThemeJson, ind: IndicatorJson): Model.Indicator {
    Model.Indicator(ind.id, themeCode, theme.name, theme.theme, ind.name, ind.statement,
      ToImpact(ind.impact), ControlsOf(ind.controls), ind.reference, ind.referenceUrl, ind.note, ind.retired)
  }

  /** The block one theme contributes: its indicators in list order. */
  function ThemeBlock(themeCode: Str, theme: ThemeJson): (b: seq<Model.Indicator>)
    ensures |b| == |theme.indicators|
    ensures forall i :: 0 <= i < |b| ==> b[i] == ToIndicator(themeCode, theme, theme.indicators[i])
  {
    seq(|theme.indicators|, i requires 0 <= i < |theme.indicators| => ToIndicator(themeCode, theme, theme.indicators[i]))
  }

  function Blocks(themes: map<Str, ThemeJson>): Str -> seq<Model.Indicator> {
    code => if code in themes then ThemeBlock(code, themes[code]) else []
  }

  /** The decoded `KSI` themes, or the error `ParseIndicators` reports on the way to them. */
  function ThemesOf(data: Option<Value>): (r: Result<map<Str, ThemeJson>, Error>)
    ensures r == Err(ParsingRawDocument(SyntaxError)) <==> data.None?
    ensures r.Ok? ==> data.Some? && IsStruct(data.value) && RawField(data.value, "KSI").Some?
    ensures r.Ok? && RawField(data.value, "KSI") == Some(Null) ==> r.value == map[]
  {
    match data
    case None => Err(ParsingRawDocument(SyntaxError))
    case Some(doc) =>
      match RawObject(doc)
      case None => Err(ParsingRawDocument(TypeError))
      case Some(members) =>
        match Lookup(members, "KSI")
        case None => Err(KsiSectionNotFound)
        case Some(ksi) =>
          match DecodeMap(ksi, DecodeTheme)
          case None => Err(ParsingKsiThemes(TypeError))
          case Some(themes) => Ok(themes)
  }

  /** What `ParseIndicators` returns when it visits the theme codes in `order`. */
  function IndicatorsOf(data: Option<Value>, order: seq<Str>): (r: Result<seq<Model.Indicator>, Error>)
    ensures r.Err? <==> ThemesOf(data).Err?
    ensures r.Err? ==> r.error == ThemesOf(data).error
  {
    var themes :- ThemesOf(data);
    Ok(ConcatMap(order, Blocks(themes)))
  }

  /** `ParseIndicators`; `order` is the order in which the map of themes was visited. */
  method ParseIndicators(data: Option<Value>) returns (r: Result<seq<Model.Indicator>, Error>, ghost order: seq<Str>)
    ensures ThemesOf(data).Ok? ==> IsEnumeration(order, ThemesOf(data).value.Keys)
    ensures r == IndicatorsOf(data, order)
    ensures r.Err? <==> ThemesOf(data).Err?
    ensures r.Err? ==> r.error == ThemesOf(data).error
    ensures r.Ok? ==> forall x :: x in r.value <==> exists code :: code in ThemesOf(data).value && x in ThemeBlock(code, ThemesOf(data).value[code])
  {
    order := [];
    if data.None? {
      return Err(ParsingRawDocument(SyntaxError)), order;
    }
    var rawDoc := RawObject(data.value);
    if rawDoc.None? {
      return Err(ParsingRawDocument(TypeError)), order;
    }
    var ksiRaw := Lookup(rawDoc.value, "KSI");
    if ksiRaw.None? {
      return Err(KsiSectionNotFound), order;
    }
    var ksiThemes := DecodeMap(ksiRaw.value, DecodeTheme);
    if ksiThemes.None? {
      return Err(ParsingKsiThemes(TypeError)), order;
    }
    var indicators;
    indicators, order := CollectThemes(ksiThemes.value);
    return Ok(indicators), order;
  }

  /** The loop over the map of themes, in whatever order the map yields its keys. */
  method CollectThemes(themes: map<Str, ThemeJson>) returns (indicators: seq<Model.Indicator>, ghost order: seq<Str>)
    ensures IsEnumeration(order, themes.Keys)
    ensures indicators == ConcatMap(order, Blocks(themes))
    ensures forall x :: x in indicators <==> exists code :: code in themes && x in ThemeBlock(code, themes[code])
  {
    order := [];
    indicators := [];
    var remaining := themes.Keys;
    while remaining != {}
      invariant remaining <= themes.Keys
      invariant Distinct(order)
      invariant forall k :: k in order <==> k in themes.Keys && k !in remaining
      invariant indicators == ConcatMap(order, Blocks(themes))
      decreases remaining
    {
      var themeCode :| themeCode in remaining;
      var block := ConvertTheme(themeCode, themes[themeCode]);
      indicators := indicators + block;
      assert (order + [themeCode])[..|order|] == order;
      order := order + [themeCode];
      remaining := remaining - {themeCode};
    }
    forall x
      ensures x in indicators <==> exists code :: code in themes && x in ThemeBlock(code, themes[code])
    {
      ConcatMapMember(order, Blocks(themes), x);
    }
  }

  /** The loop over one theme's indicators. */
  method ConvertTheme(themeCode: Str, theme: ThemeJson) returns (block: seq<Model.Indicator>)
    ensures block == ThemeBlock(themeCode, theme)
  {
    block := [];
    for i := 0 to |theme.indicators|
      invariant block == ThemeBlock(themeCode, theme)[..i]
    {
      var ind := theme.indicators[i];
      var controls := ConvertControls(ind.controls);
      block := block + [Model.Indicator(ind.id, themeCode, theme.name, theme.theme, ind.name, ind.statement,
        Model.Impact(ind.impact.low, ind.impact.moderate, ind.impact.high), controls,
        ind.reference, ind.referenceUrl, ind.note, ind.retired)];
    }
  }

  /** The loop over one indicator's controls, filling a slice allocated at its final length. */
  method ConvertControls(cs: seq<ControlJson>) returns (controls: seq<Model.Control>)
    ensures controls == ControlsOf(cs)
  {
    var a := new Model.Control[|cs|];
    for j := 0 to |cs|
      invariant forall k :: 0 <= k < j ==> a[k] == ToControl(cs[k])
    {
      a[j] := Model.Control(cs[j].controlId, cs[j].title);
    }
    controls := a[..];
  }

  // ---- properties ----

  /**
   * The error cases: a payload that is not JSON, or not an object; a document
   * without a `KSI` member (a `null` document has none); a `KSI` member that
   * is not an object of themes.  A `null` `KSI` member yields no indicators.
   */
  lemma IndicatorsErrors(data: Option<Value>, order: seq<Str>)
    ensures data.None? ==> IndicatorsOf(data, order) == Err(ParsingRawDocument(SyntaxError))
    ensures data.Some? && !IsStruct(data.value) ==> IndicatorsOf(data, order) == Err(ParsingRawDocument(TypeError))
    ensures data.Some? && IsStruct(data.value) && RawField(data.value, "KSI").None? ==>
      IndicatorsOf(data, order) == Err(KsiSectionNotFound)
    ensures data.Some? && RawField(data.value, "KSI").Some? && !IsStruct(RawField(data.value, "KSI").value) ==>
      IndicatorsOf(data, order) == Err(ParsingKsiThemes(TypeError))
    ensures data.Some? && RawField(data.value, "KSI") == Some(Null) ==> IndicatorsOf(data, order) == Ok([])
  {
    ConcatMapEmpty(order, Blocks(map[]));
  }

  /** Every indicator of a theme's block carries that theme's code, name and description. */
  lemma BlockStamped(themes: map<Str, ThemeJson>, code: Str, i: nat)
    requires code in themes && i < |Blocks(themes)(code)|
    ensures Blocks(themes)(code)[i].themeCode == code
    ensures Blocks(themes)(code)[i].themeName == themes[code].name
    ensures Blocks(themes)(code)[i].themeDesc == themes[code].theme
    ensures Blocks(themes)(code)[i].controls == ControlsOf(themes[code].indicators[i].controls)
  {
  }

  /**
   * Whatever the visiting order, the indicators with theme code `code` are
   * exactly that theme's indicators, in their list order; a code that is not
   * a theme selects none.
   */
  lemma {:induction false} IndicatorsOfTheme(data: Option<Value>, order: seq<Str>, code: Str)
    requires ThemesOf(data).Ok? && IsEnumeration(order, ThemesOf(data).value.Keys)
    ensures var themes := ThemesOf(data).value;
      Select(IndicatorsOf(data, order).value, (x: Model.Indicator) => x.themeCode, code) ==
      if code in themes then ThemeBlock(code, themes[code]) else []
  {
    var themes := ThemesOf(data).value;
    var f := Blocks(themes);
    forall key, i | key in order && 0 <= i < |f(key)|
      ensures f(key)[i].themeCode == key
    {
      BlockStamped(themes, key, i);
    }
    SelectConcatMap(order, f, (x: Model.Indicator) => x.themeCode, code);
  }

  /** The number of indicators is the sum of the themes' list lengths. */
  lemma {:induction false} IndicatorsCount(data: Option<Value>, order: seq<Str>)
    requires ThemesOf(data).Ok?
    ensures |IndicatorsOf(data, order).value| == BlockLengths(order, Blocks(ThemesOf(data).value))
  {
    ConcatMapLength(order, Blocks(ThemesOf(data).value));
  }

  /** Two runs that visit the themes in different orders return the same indicators, permuted. */
  lemma {:induction false} IndicatorsOrderIndependent(data: Option<Value>, o1: seq<Str>, o2: seq<Str>)
    requires ThemesOf(data).Ok?
    requires IsEnumeration(o1, ThemesOf(data).value.Keys) && IsEnumeration(o2, ThemesOf(data).value.Keys)
    ensures multiset(IndicatorsOf(data, o1).value) == multiset(IndicatorsOf(data, o2).value)
  {
    EnumerationsPermute(o1, o2, ThemesOf(data).value.Keys);
    ConcatMapPermutation(o1, o2, Blocks(ThemesOf(data).value));
  }
}
