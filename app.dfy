/**
 * The key handling of `Model.Update` (`internal/tui/app.go`): which view is
 * shown, which filters are set, and what the list shows after each key.
 *
 * The list component's own state enters as inputs to each key: whether the
 * list's filter prompt is open (`filtering`) and which row is highlighted
 * (`highlighted`).  A key the model does not handle is forwarded to the
 * list or to the detail viewport; the command says which.
 */
module App {
  import opened Wrappers
  import opened Text
  import opened Model
  import opened ListItem
  import ApiTypes
  import Filters

  datatype ViewState = Home | Requirements | Definitions | Indicators | Detail

  /** `AffectsOptions`: the cycle order of the affects filter. */
  const AffectsOptions: seq<Str> := ["", "Providers", "Agencies", "Assessors", "FedRAMP"]

  /** A key press, as far as `Update` tells keys apart. */
  datatype Key = Esc | Backspace | Enter | CtrlC | Rune(c: char) | OtherKey

  /** What `Update` does besides changing the model. */
  datatype Cmd =
    | NoCmd       // nothing further
    | Quit        // `tea.Quit`
    | ToViewport  // the key scrolls the detail viewport
    | ToList      // the key goes to the list component

  /** The navigation and filter state that keys change. */
  datatype Nav = Nav(
    view: ViewState,
    previousView: ViewState,
    documentFilter: Str,
    keywordFilter: Str,
    affectsFilter: Str,
    selectedItem: Option<Item>,
    viewportReady: bool)

  /** One key's effect: the new state, the command, and whether `updateListForView` ran. */
  datatype Effect = Effect(nav: Nav, cmd: Cmd, relist: bool)

  /** The state a well-formed model stays in: the viewport exists exactly in the detail view, which is never the view to go back to. */
  predicate Valid(n: Nav) {
    (n.view == Detail <==> n.viewportReady) && n.previousView != Detail
  }

  // ---- the pieces of a transition ----

  /** The position of the current affects filter in the cycle; a value not in it counts as 0. */
  function AffectsIndex(f: Str): (i: nat)
    ensures i < |AffectsOptions|
    ensures f in AffectsOptions ==> AffectsOptions[i] == f
    ensures f !in AffectsOptions ==> i == 0
  {
    var i := FirstIndex(AffectsOptions, f);
    if i < |AffectsOptions| then i else 0
  }

  /** The affects filter after `x`. */
  function NextAffects(f: Str): Str {
    AffectsOptions[(AffectsIndex(f) + 1) % |AffectsOptions|]
  }

  /** The keyword filter after `m` (word "MUST") or `s` (word "SHOULD"). */
  function Toggle(current: Str, word: Str): Str {
    if current == word then "" else word
  }

  /** Where Enter on a document's detail leads: its list, and the document filter that list gets. */
  function Route(code: Str): (ViewState, Str) {
    if code == "FRD" then (Definitions, "")
    else if code == "KSI" then (Indicators, "")
    else (Requirements, code)
  }

  /** A key that falls through `Update`'s switch reaches the list, unless loading, failed or in detail. */
  function Forward(n: Nav, relist: bool, loading: bool, failed: bool): Effect {
    Effect(n, if !loading && !failed && n.view != Detail then ToList else NoCmd, relist)
  }

  predicate AnyFilter(n: Nav) {
    n.documentFilter != "" || n.keywordFilter != "" || n.affectsFilter != ""
  }

  /** The switch on the key's text, once neither the detail view nor the list's prompt took it. */
  function Dispatch(n: Nav, key: Key, loading: bool, failed: bool, highlighted: Option<Item>): (e: Effect)
    ensures e.cmd == Quit <==> key == CtrlC || key == Rune('q')
    ensures e.nav.view == Detail && n.view != Detail ==>
      key == Enter && !loading && highlighted.Some? && e.nav.selectedItem == highlighted &&
      e.nav.previousView == n.view && e.nav.viewportReady
  {
    match key
    case CtrlC => Effect(n, Quit, false)
    case Enter =>
      if !loading && highlighted.Some? then
        Effect(n.(selectedItem := highlighted, previousView := n.view, view := Detail, viewportReady := true), NoCmd, false)
      else Forward(n, false, loading, failed)
    case Rune(c) => RuneEffect(n, c, loading, failed)
    case _ => Forward(n, false, loading, failed)
  }

  predicate IsFilterKey(c: char) {
    c == 'f' || c == 'x' || c == 'm' || c == 's'
  }

  predicate IsViewKey(c: char) {
    c == '1' || c == '2' || c == '3' || c == '4'
  }

  /** A printable key. */
  function RuneEffect(n: Nav, c: char, loading: bool, failed: bool): Effect {
    if c == 'q' then Effect(n, Quit, false)
    else if IsFilterKey(c) then FilterEffect(n, c, loading, failed)
    else if IsViewKey(c) then ViewEffect(n, c, loading, failed)
    else Forward(n, false, loading, failed)
  }

  /** The filter keys act only in the requirements view; `f` only when some filter is set. */
  function FilterEffect(n: Nav, c: char, loading: bool, failed: bool): (e: Effect)
    requires IsFilterKey(c)
    ensures e.nav.view == n.view && e.nav.previousView == n.previousView &&
      e.nav.selectedItem == n.selectedItem && e.nav.viewportReady == n.viewportReady
    ensures n.view != Requirements ==> e.nav == n && !e.relist
    ensures e.relist <==> e.nav != n
  {
    if n.view != Requirements then Forward(n, false, loading, failed)
    else if c == 'f' then
      if AnyFilter(n) then Effect(n.(documentFilter := "", keywordFilter := "", affectsFilter := ""), NoCmd, true)
      else Forward(n, false, loading, failed)
    else if c == 'x' then
      NextAffectsMoves(n.affectsFilter);
      Effect(n.(affectsFilter := NextAffects(n.affectsFilter)), NoCmd, true)
    else if c == 'm' then Effect(n.(keywordFilter := Toggle(n.keywordFilter, "MUST")), NoCmd, true)
    else Effect(n.(keywordFilter := Toggle(n.keywordFilter, "SHOULD")), NoCmd, true)
  }

  /** `x` always moves the affects filter: the options are distinct and "Providers" is one of them. */
  lemma NextAffectsMoves(f: Str)
    ensures NextAffects(f) != f
  {
    var i := AffectsIndex(f);
    if f !in AffectsOptions {
      assert "Providers" in AffectsOptions;
    } else if i == 0 {
      assert NextAffects(f) == "Providers" && f == "";
    } else if i == 1 {
      assert NextAffects(f) == "Agencies" && f == "Providers";
    } else if i == 2 {
      assert NextAffects(f) == "Assessors" && f == "Agencies";
    } else if i == 3 {
      assert NextAffects(f) == "FedRAMP" && f == "Assessors";
    } else {
      assert NextAffects(f) == "" && f == "FedRAMP";
    }
  }


  /** The view keys switch views outside the detail view, and the key still reaches the list. */
  function ViewEffect(n: Nav, c: char, loading: bool, failed: bool): (e: Effect)
    requires IsViewKey(c)
    ensures e.nav.previousView == n.previousView && e.nav.selectedItem == n.selectedItem &&
      e.nav.viewportReady == n.viewportReady && e.nav.affectsFilter == n.affectsFilter
    ensures e.nav.view == Detail <==> n.view == Detail
    ensures e.relist <==> n.view != Detail
    ensures e.cmd == (if !loading && !failed && n.view != Detail then ToList else NoCmd)
  {
    if n.view == Detail then Forward(n, false, loading, failed)
    else if c == '1' then Forward(n.(view := Home, documentFilter := "", keywordFilter := ""), true, loading, failed)
    else if c == '2' then Forward(n.(view := Requirements), true, loading, failed)
    else if c == '3' then Forward(n.(view := Definitions), true, loading, failed)
    else Forward(n.(view := Indicators), true, loading, failed)
  }

  predicate IsBack(key: Key) {
    key == Esc || key == Backspace || key == Rune('q')
  }

  /** Whether the detail view handles the key itself: going back, Enter on a document, or anything the viewport scrolls on. */
  predicate DetailTakes(n: Nav, key: Key) {
    IsBack(key) || (key == Enter && n.selectedItem.Some? && n.selectedItem.value.DocumentItem?) || n.viewportReady
  }

  /** A key the detail view handles. */
  function DetailEffect(n: Nav, key: Key): (e: Effect)
    requires DetailTakes(n, key)
    ensures e.nav.selectedItem == n.selectedItem && e.nav.previousView == n.previousView &&
      e.nav.keywordFilter == n.keywordFilter && e.nav.affectsFilter == n.affectsFilter
    ensures !e.relist ==> e == Effect(n, ToViewport, false)
    ensures e.relist ==> !e.nav.viewportReady && e.cmd == NoCmd
    ensures Valid(n) && n.view == Detail ==> (e.relist <==> e.nav.view != Detail)
  {
    if IsBack(key) then
      Effect(n.(view := n.previousView, viewportReady := false), NoCmd, true)
    else if key == Enter && n.selectedItem.Some? && n.selectedItem.value.DocumentItem? then
      var (v, df) := Route(n.selectedItem.value.document.code);
      Effect(n.(view := v, documentFilter := df, viewportReady := false), NoCmd, true)
    else Effect(n, ToViewport, false)
  }

  /** A key press in `Update`. */
  function Transition(n: Nav, key: Key, loading: bool, failed: bool, filtering: bool, highlighted: Option<Item>): (e: Effect)
    ensures Valid(n) && e.cmd == Quit ==> n.view != Detail
    ensures Valid(n) && e.relist ==> e.nav.view != Detail
  {
    if n.view == Detail && DetailTakes(n, key) then DetailEffect(n, key)
    else if filtering then Effect(n, ToList, false)
    else Dispatch(n, key, loading, failed, highlighted)
  }

  // ---- what the list shows ----

  function DocumentRows(docs: seq<Document>): (items: seq<Item>)
    ensures |items| == |docs| && forall i :: 0 <= i < |docs| ==> items[i] == DocumentItem(docs[i])
  {
    seq(|docs|, i requires 0 <= i < |docs| => DocumentItem(docs[i]))
  }

  function DefinitionRows(defs: seq<Definition>): (items: seq<Item>)
    ensures |items| == |defs| && forall i :: 0 <= i < |defs| ==> items[i] == DefinitionItem(defs[i])
  {
    seq(|defs|, i requires 0 <= i < |defs| => DefinitionItem(defs[i]))
  }

  function IndicatorRows(inds: seq<Indicator>): (items: seq<Item>)
    ensures |items| == |inds| && forall i :: 0 <= i < |inds| ==> items[i] == IndicatorItem(inds[i])
  {
    seq(|inds|, i requires 0 <= i < |inds| => IndicatorItem(inds[i]))
  }

  /** The rows `updateListForView` puts in the list for a view; the detail view has none. */
  function RowsFor(n: Nav, docs: seq<Document>, reqs: seq<Requirement>, defs: seq<Definition>, inds: seq<Indicator>): seq<Item> {
    match n.view
    case Home => DocumentRows(docs)
    case Requirements => Filters.RequirementRows(Filters.Filtered(reqs, n.documentFilter, n.keywordFilter, n.affectsFilter))
    case Definitions => DefinitionRows(defs)
    case Indicators => IndicatorRows(inds)
    case Detail => []
  }

  /** `getDocumentItems`. */
  method GetDocumentItems(docs: seq<Document>) returns (items: seq<Item>)
    ensures items == DocumentRows(docs)
  {
    var a := new Item[|docs|];
    for i := 0 to |docs|
      invariant forall k :: 0 <= k < i ==> a[k] == DocumentItem(docs[k])
    {
      a[i] := DocumentItem(docs[i]);
    }
    items := a[..];
  }

  /** `getDefinitionItems`. */
  method GetDefinitionItems(defs: seq<Definition>) returns (items: seq<Item>)
    ensures items == DefinitionRows(defs)
  {
    var a := new Item[|defs|];
    for i := 0 to |defs|
      invariant forall k :: 0 <= k < i ==> a[k] == DefinitionItem(defs[k])
    {
      a[i] := DefinitionItem(defs[i]);
    }
    items := a[..];
  }

  /** `getIndicatorItems`. */
  method GetIndicatorItems(inds: seq<Indicator>) returns (items: seq<Item>)
    ensures items == IndicatorRows(inds)
  {
    var a := new Item[|inds|];
    for i := 0 to |inds|
      invariant forall k :: 0 <= k < i ==> a[k] == IndicatorItem(inds[k])
    {
      a[i] := IndicatorItem(inds[i]);
    }
    items := a[..];
  }

  /** The loop that finds the current affects filter in `AffectsOptions`. */
  method CurrentAffectsIndex(f: Str) returns (currentIdx: nat)
    ensures currentIdx == AffectsIndex(f)
  {
    currentIdx := 0;
    var i := 0;
    while i < |AffectsOptions|
      invariant 0 <= i <= |AffectsOptions|
      invariant forall k :: 0 <= k < i ==> AffectsOptions[k] != f
    {
      if AffectsOptions[i] == f {
        currentIdx := i;
        break;
      }
      i := i + 1;
    }
  }

  /** The application model: the state `Update` changes, the loaded data and the list's rows. */
  class Tui {
    var view: ViewState
    var previousView: ViewState
    var loading: bool
    var err: Option<ApiTypes.Error>
    var documents: seq<Document>
    var requirements: seq<Requirement>
    var definitions: seq<Definition>
    var indicators: seq<Indicator>
    var documentFilter: Str
    var keywordFilter: Str
    var affectsFilter: Str
    var selectedItem: Option<Item>
    var viewportReady: bool
    /** The rows of the list component. */
    var items: seq<Item>

    function State(): Nav
      reads this
    {
      Nav(view, previousView, documentFilter, keywordFilter, affectsFilter, selectedItem, viewportReady)
    }

    function Rows(): seq<Item>
      reads this
    {
      RowsFor(State(), documents, requirements, definitions, indicators)
    }

    /** `NewModel`: the home view, loading, no filters. */
    constructor ()
      ensures State() == Nav(Home, Home, "", "", "", None, false) && Valid(State())
      ensures loading && err.None? && items == []
      ensures documents == [] && requirements == [] && definitions == [] && indicators == []
    {
      view := Home;
      previousView := Home;
      loading := true;
      err := None;
      documents := [];
      requirements := [];
      definitions := [];
      indicators := [];
      documentFilter := "";
      keywordFilter := "";
      affectsFilter := "";
      selectedItem := None;
      viewportReady := false;
      items := [];
    }

    /** `updateListForView`: the list gets the rows of the current view. */
    method UpdateListForView()
      modifies this
      ensures items == Rows()
      ensures State() == old(State()) && loading == old(loading) && err == old(err)
      ensures documents == old(documents) && requirements == old(requirements)
      ensures definitions == old(definitions) && indicators == old(indicators)
    {
      match view
      case Home =>
        items := GetDocumentItems(documents);
      case Requirements =>
        items := Filters.GetRequirementItems(requirements, documentFilter, keywordFilter, affectsFilter);
      case Definitions =>
        items := GetDefinitionItems(definitions);
      case Indicators =>
        items := GetIndicatorItems(indicators);
      case Detail =>
        items := [];
    }

    /** The `DataLoadedMsg` case: the data is stored and the list shows the documents. */
    method DataLoaded(docs: seq<Document>, reqs: seq<Requirement>, defs: seq<Definition>, inds: seq<Indicator>)
      modifies this
      ensures !loading && err == old(err) && State() == old(State())
      ensures documents == docs && requirements == reqs && definitions == defs && indicators == inds
      ensures items == DocumentRows(docs)
    {
      loading := false;
      documents := docs;
      requirements := reqs;
      definitions := defs;
      indicators := inds;
      items := GetDocumentItems(documents);
    }

    /** The `ErrorMsg` case. */
    method LoadFailed(e: ApiTypes.Error)
      modifies this
      ensures !loading && err == Some(e) && State() == old(State()) && items == old(items)
      ensures documents == old(documents) && requirements == old(requirements)
      ensures definitions == old(definitions) && indicators == old(indicators)
    {
      loading := false;
      err := Some(e);
    }

    /** The `tea.KeyMsg` case of `Update`. */
    method UpdateKey(key: Key, filtering: bool, highlighted: Option<Item>) returns (cmd: Cmd)
      modifies this
      ensures var e := Transition(old(State()), key, old(loading), old(err).Some?, filtering, highlighted);
        State() == e.nav && cmd == e.cmd && items == (if e.relist then Rows() else old(items))
      ensures loading == old(loading) && err == old(err)
      ensures documents == old(documents) && requirements == old(requirements)
      ensures definitions == old(definitions) && indicators == old(indicators)
    {
      if view == Detail {
        var handled;
        handled, cmd := DetailKey(key);
        if handled {
          return;
        }
      }
      if filtering {
        return ToList;
      }
      cmd := SwitchKey(key, highlighted);
    }

    /** The keys of the detail view; `handled` is false when the key goes on to the rest of `Update`. */
    method DetailKey(key: Key) returns (handled: bool, cmd: Cmd)
      requires view == Detail
      modifies this
      ensures handled == DetailTakes(old(State()), key)
      ensures handled ==> var e := DetailEffect(old(State()), key);
        State() == e.nav && cmd == e.cmd && items == (if e.relist then Rows() else old(items))
      ensures !handled ==> State() == old(State()) && items == old(items)
      ensures loading == old(loading) && err == old(err)
      ensures documents == old(documents) && requirements == old(requirements)
      ensures definitions == old(definitions) && indicators == old(indicators)
    {
      if key == Esc || key == Backspace || key == Rune('q') {
        view := previousView;
        viewportReady := false;
        UpdateListForView();
        return true, NoCmd;
      }
      if key == Enter {
        if selectedItem.Some? && selectedItem.value.DocumentItem? {
          OpenDocumentList(selectedItem.value.document.code);
          return true, NoCmd;
        }
      }
      if viewportReady {
        return true, ToViewport;
      }
      return false, NoCmd;
    }

    /** Enter on a document's detail: the document's own list. */
    method OpenDocumentList(code: Str)
      modifies this
      ensures var (v, df) := Route(code);
        State() == old(State()).(view := v, documentFilter := df, viewportReady := false) && items == Rows()
      ensures loading == old(loading) && err == old(err)
      ensures documents == old(documents) && requirements == old(requirements)
      ensures definitions == old(definitions) && indicators == old(indicators)
    {
      if code == "FRD" {
        view := Definitions;
        documentFilter := "";
      } else if code == "KSI" {
        view := Indicators;
        documentFilter := "";
      } else {
        view := Requirements;
        documentFilter := code;
      }
      viewportReady := false;
      UpdateListForView();
    }

    /** The end of `Update`: a key nobody handled goes to the list. */
    method ForwardCmd() returns (cmd: Cmd)
      ensures cmd == Forward(State(), false, loading, err.Some?).cmd
    {
      if !loading && err.None? && view != Detail {
        return ToList;
      }
      return NoCmd;
    }

    /** `switch msg.String()`. */
    method SwitchKey(key: Key, highlighted: Option<Item>) returns (cmd: Cmd)
      modifies this
      ensures var e := Dispatch(old(State()), key, old(loading), old(err).Some?, highlighted);
        State() == e.nav && cmd == e.cmd && items == (if e.relist then Rows() else old(items))
      ensures loading == old(loading) && err == old(err)
      ensures documents == old(documents) && requirements == old(requirements)
      ensures definitions == old(definitions) && indicators == old(indicators)
    {
      match key {
        case CtrlC =>
          return Quit;
        case Enter =>
          if !loading {
            if highlighted.Some? {
              selectedItem := highlighted;
              previousView := view;
              view := Detail;
              viewportReady := true;
              return NoCmd;
            }
          }
          cmd := ForwardCmd();
        case Rune(c) =>
          if c == 'q' {
            return Quit;
          } else if IsFilterKey(c) {
            cmd := FilterKey(c);
          } else if IsViewKey(c) {
            cmd := ViewKey(c);
          } else {
            cmd := ForwardCmd();
          }
        case _ =>
          cmd := ForwardCmd();
      }
    }

    /** The filter keys `f`, `x`, `m` and `s`. */
    method FilterKey(c: char) returns (cmd: Cmd)
      requires IsFilterKey(c)
      modifies this
      ensures var e := FilterEffect(old(State()), c, old(loading), old(err).Some?);
        State() == e.nav && cmd == e.cmd && items == (if e.relist then Rows() else old(items))
      ensures loading == old(loading) && err == old(err)
      ensures documents == old(documents) && requirements == old(requirements)
      ensures definitions == old(definitions) && indicators == old(indicators)
    {
      if view != Requirements {
        cmd := ForwardCmd();
        return;
      }
      if c == 'f' {
        if documentFilter != "" || keywordFilter != "" || affectsFilter != "" {
          ClearFilters();
          return NoCmd;
        }
        cmd := ForwardCmd();
      } else if c == 'x' {
        CycleAffects();
        return NoCmd;
      } else if c == 'm' {
        ToggleKeyword("MUST");
        return NoCmd;
      } else {
        ToggleKeyword("SHOULD");
        return NoCmd;
      }
    }

    /** `f` while a filter is set: every filter cleared and the list rebuilt. */
    method ClearFilters()
      modifies this
      ensures State() == old(State()).(documentFilter := "", keywordFilter := "", affectsFilter := "") && items == Rows()
      ensures loading == old(loading) && err == old(err)
      ensures documents == old(documents) && requirements == old(requirements)
      ensures definitions == old(definitions) && indicators == old(indicators)
    {
      documentFilter := "";
      keywordFilter := "";
      affectsFilter := "";
      UpdateListForView();
    }

    /** `x`: the next affects filter of the cycle, and the list rebuilt. */
    method CycleAffects()
      modifies this
      ensures State() == old(State()).(affectsFilter := NextAffects(old(affectsFilter))) && items == Rows()
      ensures loading == old(loading) && err == old(err)
      ensures documents == old(documents) && requirements == old(requirements)
      ensures definitions == old(definitions) && indicators == old(indicators)
    {
      var currentIdx := CurrentAffectsIndex(affectsFilter);
      var nextIdx := (currentIdx + 1) % |AffectsOptions|;
      affectsFilter := AffectsOptions[nextIdx];
      UpdateListForView();
    }

    /** `m` or `s`: the keyword filter set to the word, or cleared when it already is the word. */
    method ToggleKeyword(word: Str)
      modifies this
      ensures State() == old(State()).(keywordFilter := Toggle(old(keywordFilter), word)) && items == Rows()
      ensures loading == old(loading) && err == old(err)
      ensures documents == old(documents) && requirements == old(requirements)
      ensures definitions == old(definitions) && indicators == old(indicators)
    {
      if keywordFilter == word {
        keywordFilter := "";
      } else {
        keywordFilter := word;
      }
      UpdateListForView();
    }

    /** The view keys `1` to `4`; the key then still goes to the list. */
    method ViewKey(c: char) returns (cmd: Cmd)
      requires IsViewKey(c)
      modifies this
      ensures var e := ViewEffect(old(State()), c, old(loading), old(err).Some?);
        State() == e.nav && cmd == e.cmd && items == (if e.relist then Rows() else old(items))
      ensures loading == old(loading) && err == old(err)
      ensures documents == old(documents) && requirements == old(requirements)
      ensures definitions == old(definitions) && indicators == old(indicators)
    {
      if view != Detail {
        if c == '1' {
          view := Home;
          documentFilter := "";
          keywordFilter := "";
        } else if c == '2' {
          view := Requirements;
        } else if c == '3' {
          view := Definitions;
        } else {
          view := Indicators;
        }
        UpdateListForView();
      }
      cmd := ForwardCmd();
    }
  }

  // ---- properties of the key handling ----

  /** Every key keeps a well-formed state well-formed; in particular going back never lands in the detail view. */
  lemma TransitionKeepsValid(n: Nav, key: Key, loading: bool, failed: bool, filtering: bool, highlighted: Option<Item>)
    requires Valid(n)
    ensures Valid(Transition(n, key, loading, failed, filtering, highlighted).nav)
  {
  }

  /** `x` moves one step along `AffectsOptions`, wrapping from the last to the first. */
  lemma AffectsStep(i: nat)
    requires i < |AffectsOptions|
    ensures NextAffects(AffectsOptions[i]) == AffectsOptions[Shift(i)]
  {
    assert AffectsIndex(AffectsOptions[i]) == i;
  }

  /** A value outside the cycle counts as its start, so `x` moves it to "Providers". */
  lemma UnknownAffects(f: Str)
    requires f !in AffectsOptions
    ensures NextAffects(f) == "Providers"
  {
  }

  /** `count` presses of one key, outside the list's filter prompt, after loading, with nothing highlighted. */
function Presses(n: Nav, key: Key, count: nat): Nav {
    Iterate(PressStep(key), n, count)
  }

  /** One press of a key with no list filter being typed and nothing highlighted. */
  function PressStep(key: Key): Nav -> Nav {
    m => Transition(m, key, false, false, false, None).nav
  }

  /** `count` applications of `step`. */
  function Iterate<T>(step: T -> T, x: T, count: nat): T
    decreases count
  {
    if count == 0 then x else Iterate(step, step(x), count - 1)
  }

  /** In the requirements view, `x` changes only the affects filter, by one step. */
  lemma PressX(n: Nav, loading: bool, failed: bool, highlighted: Option<Item>)
    requires n.view == Requirements
    ensures Transition(n, Rune('x'), loading, failed, false, highlighted) ==
      Effect(n.(affectsFilter := NextAffects(n.affectsFilter)), NoCmd, true)
  {
  }

  /** The affects filter after `count` presses of `x`. */
  function Cycle(f: Str, count: nat): Str {
    Iterate(NextAffects, f, count)
  }

  /** The successor of a position in the cycle: `(i + 1) % 5`. */
  function Shift(i: nat): nat {
    if i + 1 < |AffectsOptions| then i + 1 else 0
  }

  /** Five steps of the cycle, from any of its positions, come back to it. */
  lemma CycleFive(i: nat)
    requires i < |AffectsOptions|
    ensures Cycle(AffectsOptions[i], 5) == AffectsOptions[i]
  {
    var i1 := Shift(i);
    var i2 := Shift(i1);
    var i3 := Shift(i2);
    var i4 := Shift(i3);
    AffectsStep(i);
    AffectsStep(i1);
    AffectsStep(i2);
    AffectsStep(i3);
    AffectsStep(i4);
    assert Shift(i4) == i;
    assert Cycle(AffectsOptions[i], 5) == Cycle(AffectsOptions[i1], 4);
    assert Cycle(AffectsOptions[i1], 4) == Cycle(AffectsOptions[i2], 3);
    assert Cycle(AffectsOptions[i2], 3) == Cycle(AffectsOptions[i3], 2);
    assert Cycle(AffectsOptions[i3], 2) == Cycle(AffectsOptions[i4], 1);
  }

  /** Repeated presses of `x` in the requirements view change only the affects filter. */
  lemma PressesX(n: Nav, count: nat)
    requires n.view == Requirements
    ensures Presses(n, Rune('x'), count) == n.(affectsFilter := Cycle(n.affectsFilter, count))
  {
    forall m: Nav | m.view == Requirements
      ensures PressStep(Rune('x'))(m) == m.(affectsFilter := NextAffects(m.affectsFilter))
    {
      PressX(m, false, false, None);
    }
    IterateField(PressStep(Rune('x')), NextAffects, n, count);
  }

  /** A step that changes only the affects filter, repeated, repeats its change of the filter. */
  lemma {:induction false} IterateField(step: Nav -> Nav, next: Str -> Str, n: Nav, count: nat)
    requires n.view == Requirements
    requires forall m: Nav :: m.view == Requirements ==> step(m) == m.(affectsFilter := next(m.affectsFilter))
    ensures Iterate(step, n, count) == n.(affectsFilter := Iterate(next, n.affectsFilter, count))
    decreases count
  {
    if count > 0 {
      IterateField(step, next, step(n), count - 1);
    }
  }

  /** Five presses of `x` return the affects filter to where it started. */
  lemma FivePressesOfX(n: Nav)
    requires n.view == Requirements && n.affectsFilter in AffectsOptions
    ensures Presses(n, Rune('x'), 5) == n
  {
    PressesX(n, 5);
    CycleFive(AffectsIndex(n.affectsFilter));
  }

  /**
   * In the requirements view `m` sets "MUST" from any other keyword filter,
   * "SHOULD" included, and clears it when it is "MUST"; `s` does the same
   * with "SHOULD".  Nothing else changes and the list is rebuilt.
   */
  lemma KeywordKeys(n: Nav, loading: bool, failed: bool, highlighted: Option<Item>)
    requires n.view == Requirements
    ensures var e := Transition(n, Rune('m'), loading, failed, false, highlighted);
      e.cmd == NoCmd && e.relist && e.nav == n.(keywordFilter := e.nav.keywordFilter) &&
      (n.keywordFilter == "MUST" ==> e.nav.keywordFilter == "") &&
      (n.keywordFilter != "MUST" ==> e.nav.keywordFilter == "MUST")
    ensures var e := Transition(n, Rune('s'), loading, failed, false, highlighted);
      e.cmd == NoCmd && e.relist && e.nav == n.(keywordFilter := e.nav.keywordFilter) &&
      (n.keywordFilter == "SHOULD" ==> e.nav.keywordFilter == "") &&
      (n.keywordFilter != "SHOULD" ==> e.nav.keywordFilter == "SHOULD")
  {
  }

  /** The source's toggle test: `m` sets MUST, `m` again clears it, `s` then sets SHOULD. */
  lemma KeywordToggleExample(n: Nav)
    requires n.view == Requirements && n.keywordFilter == ""
    ensures var n1 := PressStep(Rune('m'))(n);
      var n2 := PressStep(Rune('m'))(n1);
      var n3 := PressStep(Rune('s'))(n2);
      n1.keywordFilter == "MUST" && n2.keywordFilter == "" && n3.keywordFilter == "SHOULD"
  {
    KeywordKeys(n, false, false, None);
    var n1 := PressStep(Rune('m'))(n);
    assert n1 == n.(keywordFilter := "MUST");
    KeywordKeys(n1, false, false, None);
    var n2 := PressStep(Rune('m'))(n1);
    assert n2 == n.(keywordFilter := "");
    KeywordKeys(n2, false, false, None);
  }

  /** In the requirements view `f` clears all three filters when any is set; otherwise the key goes to the list. */
  lemma ClearKey(n: Nav, loading: bool, failed: bool, highlighted: Option<Item>)
    requires n.view == Requirements
    ensures var e := Transition(n, Rune('f'), loading, failed, false, highlighted);
      (AnyFilter(n) ==> e == Effect(n.(documentFilter := "", keywordFilter := "", affectsFilter := ""), NoCmd, true)) &&
      (!AnyFilter(n) ==> e.nav == n && !e.relist && (e.cmd == ToList <==> !loading && !failed))
  {
  }

  /**
   * Enter on a document's detail opens its list: the definitions for FRD,
   * the indicators for KSI, both without a document filter, and otherwise
   * the requirements filtered to that document.
   */
  lemma EnterOnDocument(n: Nav, d: Document, loading: bool, failed: bool, filtering: bool, highlighted: Option<Item>)
    requires n.view == Detail && n.selectedItem == Some(DocumentItem(d))
    ensures var e := Transition(n, Enter, loading, failed, filtering, highlighted);
      e.cmd == NoCmd && e.relist && !e.nav.viewportReady &&
      e.nav.keywordFilter == n.keywordFilter && e.nav.affectsFilter == n.affectsFilter &&
      (d.code == "FRD" ==> e.nav.view == Definitions && e.nav.documentFilter == "") &&
      (d.code == "KSI" ==> e.nav.view == Indicators && e.nav.documentFilter == "") &&
      (d.code != "FRD" && d.code != "KSI" ==> e.nav.view == Requirements && e.nav.documentFilter == d.code)
  {
  }

  /** Esc, Backspace or `q` in the detail view return to the view it was opened from; the filters stay. */
  lemma BackKeys(n: Nav, key: Key, loading: bool, failed: bool, filtering: bool, highlighted: Option<Item>)
    requires n.view == Detail && IsBack(key)
    ensures var e := Transition(n, key, loading, failed, filtering, highlighted);
      e == Effect(n.(view := n.previousView, viewportReady := false), NoCmd, true)
  {
  }

  /**
   * Outside the detail view and the filter prompt, `1` to `4` open Home,
   * Requirements, Definitions and Indicators; `1` also clears the document
   * and keyword filters but keeps the affects filter.  The key then still
   * reaches the list.
   */
  lemma ViewKeys(n: Nav, loading: bool, failed: bool, highlighted: Option<Item>)
    requires n.view != Detail
    ensures var e := Transition(n, Rune('1'), loading, failed, false, highlighted);
      e.nav == n.(view := Home, documentFilter := "", keywordFilter := "") && e.relist &&
      (e.cmd == ToList <==> !loading && !failed)
    ensures Transition(n, Rune('2'), loading, failed, false, highlighted).nav == n.(view := Requirements)
    ensures Transition(n, Rune('3'), loading, failed, false, highlighted).nav == n.(view := Definitions)
    ensures Transition(n, Rune('4'), loading, failed, false, highlighted).nav == n.(view := Indicators)
  {
  }

  /**
   * Outside the detail view ctrl+c and `q` quit; in a well-formed detail
   * view `q` goes back and ctrl+c only reaches the viewport.
   */
  lemma QuitKeys(n: Nav, loading: bool, failed: bool, highlighted: Option<Item>)
    requires Valid(n)
    ensures n.view != Detail ==>
      Transition(n, CtrlC, loading, failed, false, highlighted) == Effect(n, Quit, false) &&
      Transition(n, Rune('q'), loading, failed, false, highlighted) == Effect(n, Quit, false)
    ensures n.view == Detail ==>
      Transition(n, CtrlC, loading, failed, false, highlighted) == Effect(n, ToViewport, false) &&
      Transition(n, Rune('q'), loading, failed, false, highlighted).cmd == NoCmd
  {
  }

  /** While the list's filter prompt is open, keys outside the detail view change nothing and go to the list. */
  lemma FilterPromptTakesKeys(n: Nav, key: Key, loading: bool, failed: bool, highlighted: Option<Item>)
    requires Valid(n) && n.view != Detail
    ensures Transition(n, key, loading, failed, true, highlighted) == Effect(n, ToList, false)
  {
  }

  /**
   * Enter on a highlighted row opens its detail, and Esc from there returns
   * to the same view with the same filters.
   */
  lemma DetailRoundTrip(n: Nav, it: Item, failed: bool)
    requires Valid(n) && n.view != Detail
    ensures var shown := Transition(n, Enter, false, failed, false, Some(it)).nav;
      shown.view == Detail && shown.selectedItem == Some(it) && shown.previousView == n.view &&
      Transition(shown, Esc, false, failed, false, None).nav == n.(selectedItem := Some(it), previousView := n.view)
  {
  }

  /** While loading, Enter opens no detail. */
  lemma NoDetailWhileLoading(n: Nav, failed: bool, highlighted: Option<Item>)
    requires Valid(n) && n.view != Detail
    ensures Transition(n, Enter, true, failed, false, highlighted) == Effect(n, NoCmd, false)
  {
  }
}
