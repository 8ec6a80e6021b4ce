/**
 * The list-row helpers of `internal/tui/delegate.go`: the row height, the
 * `truncate` helper that shortens a statement to one line, and the title a
 * requirement row shows.
 */
module Delegate {
  import opened Text
  import Model

  /** `ItemDelegate`: whether a row shows its description line. */
  datatype ItemDelegate = ItemDelegate(showDescription: bool)

  /** `NewItemDelegate`: rows show their description. */
  function NewItemDelegate(): (d: ItemDelegate)
    ensures d.showDescription
  {
    ItemDelegate(true)
  }

  /** `ItemDelegate.Height`: two lines with a description, one without. */
  function Height(d: ItemDelegate): (h: nat)
    ensures 1 <= h <= 2
    ensures h == 2 <==> d.showDescription
  {
    if d.showDescription then 2 else 1
  }

  lemma DefaultHeight()
    ensures Height(NewItemDelegate()) == 2
  {
  }

  /** The text `truncate` measures: newlines turned into spaces, surrounding whitespace trimmed. */
  function OneLine(s: Str): (t: Str)
    ensures '\n' !in t
    ensures t == [] || (!IsSpace(t[0]) && !IsSpace(t[|t| - 1]))
  {
    TrimSpace(NewlinesToSpaces(s))
  }

  /**
   * `truncate`: the one-line text when it fits in `max` bytes, otherwise its
   * first `max - 3` bytes and "...".  Slicing `s[:max-3]` panics for
   * `max < 3`, so a caller must pass at least 3 unless the text fits; the
   * callers pass 60 and 80.
   */
  function Truncate(s: Str, max: int): (r: Str)
    requires |OneLine(s)| <= max || max >= 3
    ensures '\n' !in r
    ensures |r| <= max
    ensures |OneLine(s)| <= max ==> r == OneLine(s)
    ensures |OneLine(s)| > max ==> |r| == max && r[..max - 3] == OneLine(s)[..max - 3] && r[max - 3..] == "..."
  {
    var t := OneLine(s);
    if |t| > max then
      var r := t[..max - 3] + "...";
      assert r[..max - 3] == t[..max - 3];
      assert forall i :: 0 <= i < max - 3 ==> r[i] == t[i];
      r
    else t
  }

  /** A one-line string with no surrounding whitespace is its own one-line text. */
  lemma OneLineFixed(t: Str)
    requires '\n' !in t
    requires t == [] || (!IsSpace(t[0]) && !IsSpace(t[|t| - 1]))
    ensures OneLine(t) == t
  {
    assert NewlinesToSpaces(t) == t;
  }

  /** Truncating a truncated text changes nothing. */
  lemma TruncateIdempotent(s: Str, max: int)
    requires max >= 3
    ensures Truncate(Truncate(s, max), max) == Truncate(s, max)
  {
    var t := OneLine(s);
    var r := Truncate(s, max);
    if |t| > max {
      assert r[|r| - 1] == '.';
      if max > 3 {
        assert r[0] == t[0];
      } else {
        assert r[0] == '.';
      }
    }
    OneLineFixed(r);
  }

  /** A statement longer than the limit is cut to `max - 3` bytes and "...". */
  lemma TruncateLongExample()
    ensures Truncate("abcdefgh", 5) == "ab..."
  {
    var s := "abcdefgh";
    OneLineFixed(s);
    var r := Truncate(s, 5);
    assert |OneLine(s)| == 8;
    assert r[..2] == s[..2] == "ab";
    assert r == r[..2] + r[2..];
  }

  /** A short statement only has its newline flattened. */
  lemma TruncateShortExample()
    ensures Truncate("a\nb", 80) == "a b"
  {
    assert NewlinesToSpaces("a\nb") == "a b";
    OneLineFixed("a b");
    assert TrimSpace("a b") == "a b";
  }

  /** The title of a requirement row: its name, or its ID when the name is empty. */
  function RowTitle(r: Model.Requirement): (t: Str)
    ensures r.name != "" ==> t == r.name
    ensures r.name == "" ==> t == r.id
    ensures t == "" <==> r.name == "" && r.id == ""
  {
    if r.name == "" then r.id else r.name
  }
}
