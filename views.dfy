/**
 * `wrapText` (`internal/tui/views.go`): greedy word wrapping of a detail
 * text.  The words of the text are packed into lines left to right; a word
 * goes on the current line, after one space, unless that would make the line
 * longer than the width, in which case it starts a new line.
 */
module Views {
  import opened Text

  /** The width `wrapText` uses: the given one when positive, 80 otherwise. */
  function EffectiveWidth(width: int): (w: int)
    ensures w > 0
    ensures width > 0 ==> w == width
    ensures width <= 0 ==> w == 80
  {
    if width <= 0 then 80 else width
  }

  /** The length of a line as written: its words joined by single spaces. */
  function LineLen(line: seq<Str>): nat {
    |Join(line, " ")|
  }

  function Last<T>(s: seq<T>): T
    requires s != []
  {
    s[|s| - 1]
  }

  /** Whether the word after `ws` starts a new line. */
  predicate Breaks(ws: seq<Str>, w: Str, width: int)
    requires ws != []
  {
    LineLen(Last(Pack(ws, width))) + |w| + 1 > width
  }

  /** The lines of words, filled greedily from the left. */
  function Pack(ws: seq<Str>, width: int): (lines: seq<seq<Str>>)
    ensures ws == [] <==> lines == []
    ensures forall i :: 0 <= i < |lines| ==> lines[i] != []
    decreases |ws|
  {
    if ws == [] then []
    else
      var lines := Pack(ws[..|ws| - 1], width);
      var w := ws[|ws| - 1];
      if lines == [] then [[w]]
      else if LineLen(lines[|lines| - 1]) + |w| + 1 > width then lines + [[w]]
      else lines[..|lines| - 1] + [lines[|lines| - 1] + [w]]
  }

  /** The lines, each its words joined by spaces, separated by newlines. */
  function Render(lines: seq<seq<Str>>): Str
    decreases |lines|
  {
    if |lines| == 0 then ""
    else if |lines| == 1 then Join(lines[0], " ")
    else Render(lines[..|lines| - 1]) + "\n" + Join(lines[|lines| - 1], " ")
  }

  /** The text the wrapper produces from a list of words. */
  function Wrapped(ws: seq<Str>, width: int): Str {
    Render(Pack(ws, width))
  }

  /** All the words of the lines, in order. */
  function Concat(lines: seq<seq<Str>>): seq<Str>
    decreases |lines|
  {
    if lines == [] then [] else Concat(lines[..|lines| - 1]) + lines[|lines| - 1]
  }

  // ---- one word at a time ----

  lemma JoinSnoc(line: seq<Str>, w: Str)
    requires line != []
    ensures Join(line + [w], " ") == Join(line, " ") + " " + w
    ensures LineLen(line + [w]) == LineLen(line) + 1 + |w|
  {
    assert (line + [w])[..|line|] == line;
  }

  lemma PackSnoc(ws: seq<Str>, w: Str, width: int)
    requires ws != []
    ensures var p := Pack(ws, width);
      Pack(ws + [w], width) ==
        if Breaks(ws, w, width) then p + [[w]] else p[..|p| - 1] + [Last(p) + [w]]
  {
    assert (ws + [w])[..|ws|] == ws;
  }

  lemma PackOne(w: Str, width: int)
    ensures Pack([w], width) == [[w]]
    ensures Wrapped([w], width) == w
  {
    assert [w][..0] == [];
  }

  /** Rendering a new last line. */
  lemma RenderNewLine(p: seq<seq<Str>>, w: Str)
    requires p != []
    ensures Render(p + [[w]]) == Render(p) + "\n" + w
  {
    assert (p + [[w]])[..|p|] == p;
  }

  /** Rendering a last line extended by one word. */
  lemma RenderExtend(p: seq<seq<Str>>, w: Str)
    requires p != [] && Last(p) != []
    ensures Render(p[..|p| - 1] + [Last(p) + [w]]) == Render(p) + " " + w
  {
    var q := p[..|p| - 1] + [Last(p) + [w]];
    JoinSnoc(Last(p), w);
    if |p| == 1 {
      assert q == [Last(p) + [w]];
      assert Render(q) == Join(Last(p) + [w], " ");
    } else {
      RenderExtendLonger(p, q, w);
    }
  }

  lemma RenderExtendLonger(p: seq<seq<Str>>, q: seq<seq<Str>>, w: Str)
    requires |p| > 1 && Last(p) != []
    requires q == p[..|p| - 1] + [Last(p) + [w]]
    ensures Render(q) == Render(p) + " " + w
  {
    var n := |p|;
    JoinSnoc(Last(p), w);
    assert q[..n - 1] == p[..n - 1];
    assert Last(q) == Last(p) + [w];
    RenderLonger(p, q);
    StrAssoc(Render(p[..n - 1]) + "\n", Join(Last(p), " "), " " + w);
  }

  lemma StrAssoc(a: Str, b: Str, c: Str)
    ensures a + (b + c) == (a + b) + c
  {
  }

  lemma RenderLonger(p: seq<seq<Str>>, q: seq<seq<Str>>)
    requires |p| > 1 && |q| == |p| && q[..|q| - 1] == p[..|p| - 1]
    ensures Render(q) == Render(p[..|p| - 1]) + "\n" + Join(Last(q), " ")
    ensures Render(p) == Render(p[..|p| - 1]) + "\n" + Join(Last(p), " ")
  {
  }

  /**
   * Each further word adds exactly one separator and the word: a newline when
   * it breaks the line, a space otherwise.
   */
  lemma WrappedSnoc(ws: seq<Str>, w: Str, width: int)
    requires ws != []
    ensures Wrapped(ws + [w], width) ==
      Wrapped(ws, width) + (if Breaks(ws, w, width) then "\n" else " ") + w
    ensures Last(Pack(ws + [w], width)) ==
      if Breaks(ws, w, width) then [w] else Last(Pack(ws, width)) + [w]
  {
    var p := Pack(ws, width);
    PackSnoc(ws, w, width);
    if Breaks(ws, w, width) {
      RenderNewLine(p, w);
    } else {
      RenderExtend(p, w);
    }
  }

  // ---- properties ----

  lemma WrappedFieldsSnoc(pre: seq<Str>, w: Str, width: int)
    requires pre != [] && IsWord(w)
    requires Fields(Wrapped(pre, width)) == pre
    ensures Fields(Wrapped(pre + [w], width)) == pre + [w]
  {
    WrappedSnoc(pre, w, width);
    var c := if Breaks(pre, w, width) then '\n' else ' ';
    assert (if Breaks(pre, w, width) then "\n" else " ") == [c];
    FieldsAround(Wrapped(pre, width), c, w);
    FieldsWord(w);
  }

  lemma FieldsWord(w: Str)
    requires IsWord(w)
    ensures Fields(w) == [w]
  {
    FieldsWordThen(w, "");
    AppendEmpty(w);
  }

  /** The words read back from the wrapped text are the words, in order. */
  lemma {:induction false} WrappedFields(ws: seq<Str>, width: int)
    requires forall i :: 0 <= i < |ws| ==> IsWord(ws[i])
    ensures Fields(Wrapped(ws, width)) == ws
    decreases |ws|
  {
    if |ws| == 1 {
      PackOne(ws[0], width);
      FieldsWord(ws[0]);
      assert ws == [ws[0]];
    } else if |ws| > 1 {
      var pre := ws[..|ws| - 1];
      var w := ws[|ws| - 1];
      assert ws == pre + [w];
      WrappedFields(pre, width);
      WrappedFieldsSnoc(pre, w, width);
    }
  }

  /**
   * The wrapped text is the words with exactly one separator byte between
   * neighbours: no leading, trailing or doubled whitespace, no empty line.
   */
  lemma {:induction false} WrappedLength(ws: seq<Str>, width: int)
    requires ws != []
    ensures |Wrapped(ws, width)| == SumLengths(ws) + |ws| - 1
    decreases |ws|
  {
    if |ws| == 1 {
      PackOne(ws[0], width);
    } else {
      var pre := ws[..|ws| - 1];
      var w := ws[|ws| - 1];
      assert ws == pre + [w];
      WrappedLength(pre, width);
      WrappedSnoc(pre, w, width);
    }
  }

  /** No words, no text. */
  lemma WrappedEmpty(width: int)
    ensures Wrapped([], width) == ""
  {
  }

  /** The lines hold the words, in order. */
  lemma {:induction false} PackConcat(ws: seq<Str>, width: int)
    ensures Concat(Pack(ws, width)) == ws
    decreases |ws|
  {
    if ws != [] {
      var pre := ws[..|ws| - 1];
      var w := ws[|ws| - 1];
      assert ws == pre + [w];
      PackConcat(pre, width);
      if pre == [] {
        PackOne(w, width);
        assert Concat([[w]]) == Concat([]) + [w];
      } else {
        var p := Pack(pre, width);
        PackSnoc(pre, w, width);
        if Breaks(pre, w, width) {
          assert (p + [[w]])[..|p|] == p;
        } else {
          var q := p[..|p| - 1] + [Last(p) + [w]];
          assert q[..|q| - 1] == p[..|p| - 1];
          assert Concat(p) == Concat(p[..|p| - 1]) + Last(p);
        }
      }
    }
  }

  /** Every line fits in the width, unless it is a single word. */
  lemma {:induction false} PackFits(ws: seq<Str>, width: int)
    ensures var p := Pack(ws, width);
      forall i :: 0 <= i < |p| ==> |p[i]| == 1 || LineLen(p[i]) <= width
    decreases |ws|
  {
    if ws != [] {
      var pre := ws[..|ws| - 1];
      var w := ws[|ws| - 1];
      assert ws == pre + [w];
      PackFits(pre, width);
      if pre == [] {
        PackOne(w, width);
      } else {
        var p := Pack(pre, width);
        PackSnoc(pre, w, width);
        if !Breaks(pre, w, width) {
          JoinSnoc(Last(p), w);
        }
      }
    }
  }

  /** Greedy: a line ends only when the next word would not fit after one more space. */
  lemma {:induction false} PackGreedy(ws: seq<Str>, width: int)
    ensures var p := Pack(ws, width);
      forall i :: 0 <= i < |p| - 1 ==> LineLen(p[i]) + 1 + |p[i + 1][0]| > width
    decreases |ws|
  {
    if ws != [] {
      var pre := ws[..|ws| - 1];
      var w := ws[|ws| - 1];
      assert ws == pre + [w];
      PackGreedy(pre, width);
      if pre == [] {
        PackOne(w, width);
      } else {
        PackSnoc(pre, w, width);
      }
    }
  }

  // ---- the loop ----

  /** One word of the loop: the separator it writes and the length of the line after it. */
  lemma WrapStep(ws: seq<Str>, word: Str, width: int, lineLen: int)
    requires word != []
    requires ws == [] ==> lineLen == 0
    requires ws != [] ==> lineLen > 0 && lineLen == LineLen(Last(Pack(ws, width)))
    ensures var brk := lineLen + |word| + 1 > width && lineLen > 0;
      Wrapped(ws + [word], width) == Wrapped(ws, width) + (if brk then "\n" else if lineLen > 0 then " " else "") + word &&
      LineLen(Last(Pack(ws + [word], width))) == (if brk || lineLen == 0 then |word| else lineLen + 1 + |word|)
  {
    PackOne(word, width);
    if ws == [] {
      assert ws + [word] == [word];
    } else {
      WrappedSnoc(ws, word, width);
      JoinSnoc(Last(Pack(ws, width)), word);
    }
  }

  /** `wrapText`: the loop over the words, tracking the length of the current line. */
  method WrapText(text: Str, width: int) returns (out: Str)
    ensures out == Wrapped(Fields(text), EffectiveWidth(width))
  {
    var w := width;
    if w <= 0 {
      w := 80;
    }
    out := WrapWords(Fields(text), w);
  }

  /** The loop of `wrapText` over the words of the text. */
  method WrapWords(words: seq<Str>, w: int) returns (out: Str)
    requires forall i :: 0 <= i < |words| ==> words[i] != []
    ensures out == Wrapped(words, w)
  {
    var result := "";
    var lineLen := 0;
    for i := 0 to |words|
      invariant result == Wrapped(words[..i], w)
      invariant i == 0 ==> lineLen == 0
      invariant i > 0 ==> lineLen > 0 && lineLen == LineLen(Last(Pack(words[..i], w)))
    {
      var word := words[i];
      WrapStep(words[..i], word, w, lineLen);
      assert words[..i + 1] == words[..i] + [word];
      result, lineLen := AddWord(result, lineLen, word, w, i);
    }
    assert words[..|words|] == words;
    out := result;
  }

  /** The body of the loop: a newline when the word does not fit, a space between words on a line, then the word. */
  method AddWord(result: Str, lineLen: int, word: Str, w: int, i: nat) returns (result': Str, lineLen': int)
    requires i == 0 ==> lineLen == 0
    requires i > 0 ==> lineLen > 0
    ensures var brk := lineLen + |word| + 1 > w && lineLen > 0;
      result' == result + (if brk then "\n" else if lineLen > 0 then " " else "") + word &&
      lineLen' == (if brk || lineLen == 0 then |word| else lineLen + 1 + |word|)
  {
    result' := result;
    lineLen' := lineLen;
    var wordLen := |word|;
    if lineLen' + wordLen + 1 > w && lineLen' > 0 {
      result' := result' + "\n";
      lineLen' := 0;
    }
    if i > 0 && lineLen' > 0 {
      result' := result' + " ";
      lineLen' := lineLen' + 1;
    }
    result' := result' + word;
    lineLen' := lineLen' + wordLen;
  }

  /** Blank text wraps to the empty string. */
  lemma BlankText(text: Str, width: int)
    requires Fields(text) == []
    ensures Wrapped(Fields(text), EffectiveWidth(width)) == ""
  {
  }
}
