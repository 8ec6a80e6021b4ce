/**
 * Go string helpers over byte strings.
 *
 * A `Str` is a Go `string`: every element stands for one byte, so `|s|` is
 * Go's `len(s)` and `s[..n]` is Go's `s[:n]`.  Only the ASCII behaviour of
 * `strings.ToLower`, `strings.Fields` and `strings.TrimSpace` is modelled.
 */
module Text {

  type Str = string

  type byte = x: int | 0 <= x < 256

  /** Raw document payloads (`[]byte`). */
  type Bytes = seq<byte>

  /** The first position of `x` in `s`, or `|s|` when there is none (`strings.IndexByte`, a search of a slice). */
  function FirstIndex<T(==)>(s: seq<T>, x: T): (i: nat)
    ensures i <= |s|
    ensures i < |s| ==> s[i] == x
    ensures forall k :: 0 <= k < i ==> s[k] != x
    decreases |s|
  {
    if s == [] then 0 else if s[0] == x then 0 else 1 + FirstIndex(s[1..], x)
  }

  /** `strings.Join`: the parts with `sep` between neighbours. */
  function Join(parts: seq<Str>, sep: Str): Str
    decreases |parts|
  {
    if |parts| == 0 then ""
    else if |parts| == 1 then parts[0]
    else Join(parts[..|parts| - 1], sep) + sep + parts[|parts| - 1]
  }

  lemma {:induction false} JoinLength(parts: seq<Str>, sep: Str, total: nat)
    requires total == SumLengths(parts)
    ensures |Join(parts, sep)| == total + (if |parts| == 0 then 0 else (|parts| - 1) * |sep|)
    decreases |parts|
  {
    if |parts| > 1 {
      var n, init := |parts|, parts[..|parts| - 1];
      JoinLength(init, sep, SumLengths(init));
      assert |Join(parts, sep)| == |Join(init, sep)| + |sep| + |parts[n - 1]|;
      SeparatorsStep(n, |sep|);
    }
  }

  /** One more part adds one more separator. */
  lemma SeparatorsStep(n: int, m: nat)
    ensures (n - 1) * m == (n - 2) * m + m
  {
  }

  lemma JoinTwo(a: Str, b: Str, sep: Str)
    ensures Join([a, b], sep) == a + sep + b
  {
    assert [a, b][..1] == [a];
  }

  lemma JoinThree(a: Str, b: Str, c: Str, sep: Str)
    ensures Join([a, b, c], sep) == a + sep + b + sep + c
  {
    assert [a, b, c][..2] == [a, b];
    JoinTwo(a, b, sep);
  }

  lemma JoinFour(a: Str, b: Str, c: Str, e: Str, sep: Str)
    ensures Join([a, b, c, e], sep) == a + sep + b + sep + c + sep + e
  {
    assert [a, b, c, e][..3] == [a, b, c];
    JoinThree(a, b, c, sep);
  }

  function SumLengths(parts: seq<Str>): nat
    decreases |parts|
  {
    if |parts| == 0 then 0 else SumLengths(parts[..|parts| - 1]) + |parts[|parts| - 1]|
  }

  /** The bytes `unicode.IsSpace` accepts in the ASCII range. */
  predicate IsSpace(c: char) {
    c == ' ' || c == '\t' || c == '\n' || c == '\r' || c == '\U{000B}' || c == '\U{000C}'
  }

  predicate NoSpace(s: Str) {
    forall i :: 0 <= i < |s| ==> !IsSpace(s[i])
  }

  /** A field of `strings.Fields`: non-empty and space-free. */
  predicate IsWord(w: Str) {
    w != [] && NoSpace(w)
  }

  /** The suffix of `s` that starts at its first non-space byte. */
  function DropSpaces(s: Str): (r: Str)
    ensures |r| <= |s| && r == s[|s| - |r|..]
    ensures r == [] || !IsSpace(r[0])
    ensures forall i :: 0 <= i < |s| - |r| ==> IsSpace(s[i])
    decreases |s|
  {
    if s != [] && IsSpace(s[0]) then DropSpaces(s[1..]) else s
  }

  /** The length of the longest space-free prefix of `s`. */
  function WordLen(s: Str): (n: nat)
    ensures n <= |s| && NoSpace(s[..n])
    ensures n == |s| || IsSpace(s[n])
    decreases |s|
  {
    if s == [] || IsSpace(s[0]) then 0
    else
      var m := WordLen(s[1..]);
      assert s[..m + 1] == [s[0]] + s[1..][..m];
      m + 1
  }

  /** `strings.Fields`: the maximal space-free runs of `s`, in order. */
  function Fields(s: Str): (ws: seq<Str>)
    ensures forall i :: 0 <= i < |ws| ==> IsWord(ws[i])
    decreases |s|
  {
    var t := DropSpaces(s);
    if t == [] then []
    else
      var n := WordLen(t);
      [t[..n]] + Fields(t[n..])
  }

  lemma {:induction false} JoinCons(parts: seq<Str>, sep: Str)
    requires |parts| >= 2
    ensures Join(parts, sep) == parts[0] + sep + Join(parts[1..], sep)
    decreases |parts|
  {
    var n := |parts|;
    if n > 2 {
      JoinCons(parts[..n - 1], sep);
      assert parts[..n - 1][1..] == parts[1..][..n - 2];
    }
  }

  lemma {:induction false} WordLenOfWord(w: Str, rest: Str)
    requires NoSpace(w)
    requires rest == [] || IsSpace(rest[0])
    ensures WordLen(w + rest) == |w|
    decreases |w|
  {
    if w != [] {
      assert (w + rest)[1..] == w[1..] + rest;
      WordLenOfWord(w[1..], rest);
    }
  }

  /** A word followed by a space (or nothing) is the first field. */
  lemma FieldsWordThen(w: Str, rest: Str)
    requires IsWord(w)
    requires rest == [] || IsSpace(rest[0])
    ensures Fields(w + rest) == [w] + Fields(rest)
  {
    var s := w + rest;
    assert DropSpaces(s) == s;
    WordLenOfWord(w, rest);
    assert s[..|w|] == w;
    assert s[|w|..] == rest;
  }

  lemma FieldsSpaceThen(c: char, rest: Str)
    requires IsSpace(c)
    ensures Fields([c] + rest) == Fields(rest)
  {
    assert ([c] + rest)[1..] == rest;
  }

  lemma FieldsWordSpace(w: Str, rest: Str)
    requires IsWord(w)
    ensures Fields(w + " " + rest) == [w] + Fields(rest)
  {
    assert w + " " + rest == w + ([' '] + rest);
    FieldsWordThen(w, [' '] + rest);
    FieldsSpaceThen(' ', rest);
  }

  lemma HeadTail(ws: seq<Str>)
    requires ws != []
    ensures ws == [ws[0]] + ws[1..]
  {
  }

  /** `strings.Fields` undoes `strings.Join(ws, " ")` for non-empty words without spaces. */
  lemma {:induction false} FieldsJoin(ws: seq<Str>)
    requires forall i :: 0 <= i < |ws| ==> IsWord(ws[i])
    ensures Fields(Join(ws, " ")) == ws
    decreases |ws|
  {
    if |ws| == 1 {
      FieldsWordThen(ws[0], "");
      assert ws[0] + "" == ws[0];
    } else if |ws| >= 2 {
      var tail := ws[1..];
      var rest := Join(tail, " ");
      JoinCons(ws, " ");
      assert Join(ws, " ") == ws[0] + " " + rest;
      FieldsWordSpace(ws[0], rest);
      assert Fields(Join(ws, " ")) == [ws[0]] + Fields(rest);
      assert forall i :: 0 <= i < |tail| ==> tail[i] == ws[i + 1];
      FieldsJoin(tail);
      assert Fields(rest) == tail;
      HeadTail(ws);
    }
  }

  lemma WordLenPositive(a: Str)
    requires a != [] && !IsSpace(a[0])
    ensures WordLen(a) > 0
  {
  }

  lemma SpaceLed(a: Str, n: nat, tail: Str)
    requires n == WordLen(a)
    requires tail == [] || IsSpace(tail[0])
    ensures a[n..] + tail == [] || IsSpace((a[n..] + tail)[0])
  {
    if n < |a| {
      assert (a[n..] + tail)[0] == a[n];
    }
  }

  lemma AppendEmpty(s: Str)
    ensures s + [] == s
  {
  }

  lemma Uncons(a: Str, t: Str)
    requires a != []
    ensures a + t == [a[0]] + (a[1..] + t)
  {
    assert a == [a[0]] + a[1..];
  }

  lemma SplitAt(a: Str, n: nat, tail: Str)
    requires n <= |a|
    ensures a + tail == a[..n] + (a[n..] + tail)
  {
    assert a == a[..n] + a[n..];
  }

  /** The first field of a string that starts with a word is unchanged by a tail that starts with a space. */
  lemma FieldsFirstWord(a: Str, n: nat, tail: Str)
    requires a != [] && !IsSpace(a[0])
    requires n == WordLen(a)
    requires tail == [] || IsSpace(tail[0])
    ensures Fields(a + tail) == [a[..n]] + Fields(a[n..] + tail)
  {
    WordLenPositive(a);
    SpaceLed(a, n, tail);
    SplitAt(a, n, tail);
    FieldsWordThen(a[..n], a[n..] + tail);
  }

  lemma FieldsSplitSpace(a: Str, t: Str)
    requires a != [] && IsSpace(a[0])
    requires Fields(a[1..] + t) == Fields(a[1..]) + Fields(t)
    ensures Fields(a + t) == Fields(a) + Fields(t)
  {
    Uncons(a, t);
    Uncons(a, []);
    AppendEmpty(a);
    AppendEmpty(a[1..]);
    FieldsSpaceThen(a[0], a[1..] + t);
    FieldsSpaceThen(a[0], a[1..]);
  }

  lemma FieldsSplitWord(a: Str, n: nat, t: Str)
    requires a != [] && !IsSpace(a[0])
    requires n == WordLen(a)
    requires t == [] || IsSpace(t[0])
    requires Fields(a[n..] + t) == Fields(a[n..]) + Fields(t)
    ensures Fields(a + t) == Fields(a) + Fields(t)
  {
    FieldsFirstWord(a, n, t);
    FieldsFirstWord(a, n, []);
    AppendEmpty(a);
    AppendEmpty(a[n..]);
    ConsAssoc(a[..n], Fields(a[n..]), Fields(t));
  }

  lemma ConsAssoc(w: Str, x: seq<Str>, y: seq<Str>)
    ensures [w] + (x + y) == ([w] + x) + y
  {
  }

  /** A tail that starts with a space splits `strings.Fields`: the fields of each side, in order. */
  lemma {:induction false} FieldsSplit(a: Str, t: Str)
    requires t == [] || IsSpace(t[0])
    ensures Fields(a + t) == Fields(a) + Fields(t)
    decreases |a|
  {
    if a == [] {
      assert a + t == t;
    } else if IsSpace(a[0]) {
      FieldsSplit(a[1..], t);
      FieldsSplitSpace(a, t);
    } else {
      var n := WordLen(a);
      WordLenPositive(a);
      FieldsSplit(a[n..], t);
      FieldsSplitWord(a, n, t);
    }
  }

  /** One space byte between two strings: the fields of each side, in order. */
  lemma FieldsAround(a: Str, c: char, b: Str)
    requires IsSpace(c)
    ensures Fields(a + [c] + b) == Fields(a) + Fields(b)
  {
    assert a + [c] + b == a + ([c] + b);
    FieldsSplit(a, [c] + b);
    FieldsSpaceThen(c, b);
  }

  /** Removes trailing spaces. */
  function DropTrailingSpaces(s: Str): (r: Str)
    ensures |r| <= |s| && r == s[..|r|]
    ensures r == [] || !IsSpace(r[|r| - 1])
    ensures forall i :: |r| <= i < |s| ==> IsSpace(s[i])
    decreases |s|
  {
    if s != [] && IsSpace(s[|s| - 1]) then DropTrailingSpaces(s[..|s| - 1]) else s
  }

  /** `r` is the slice of `s` at offset `i`, with only spaces before and after it. */
  predicate TrimmedAt(s: Str, r: Str, i: nat) {
    OccursAt(s, r, i) &&
    (forall k :: 0 <= k < i ==> IsSpace(s[k])) &&
    (forall k :: i + |r| <= k < |s| ==> IsSpace(s[k]))
  }

  /** `strings.TrimSpace`. */
  function TrimSpace(s: Str): (r: Str)
    ensures r == [] || (!IsSpace(r[0]) && !IsSpace(r[|r| - 1]))
    ensures exists i :: TrimmedAt(s, r, i)
    ensures forall c :: c in r ==> c in s
  {
    var t := DropSpaces(s);
    var r := DropTrailingSpaces(t);
    TrimmedSlice(s, t, r, |s| - |t|);
    r
  }

  /** A prefix `r` of the suffix `t` of `s`, with spaces on both sides, is `s` trimmed. */
  lemma TrimmedSlice(s: Str, t: Str, r: Str, i: nat)
    requires i <= |s| && t == s[i..] && |r| <= |t| && r == t[..|r|]
    requires forall k :: 0 <= k < i ==> IsSpace(s[k])
    requires forall k :: |r| <= k < |t| ==> IsSpace(t[k])
    ensures TrimmedAt(s, r, i)
    ensures forall c :: c in r ==> c in s
  {
    assert s[i..i + |r|] == r;
    forall k | i + |r| <= k < |s|
      ensures IsSpace(s[k])
    {
      assert s[k] == t[k - i];
    }
    forall c | c in r
      ensures c in s
    {
      var j :| 0 <= j < |r| && r[j] == c;
      assert s[i + j] == c;
    }
  }

  /** `strings.ReplaceAll(s, "\n", " ")`. */
  function NewlinesToSpaces(s: Str): (r: Str)
    ensures |r| == |s|
    ensures forall i :: 0 <= i < |r| ==> r[i] != '\n'
    ensures forall i :: 0 <= i < |r| ==> r[i] == (if s[i] == '\n' then ' ' else s[i])
  {
    seq(|s|, i requires 0 <= i < |s| => if s[i] == '\n' then ' ' else s[i])
  }

  function LowerByte(c: char): char {
    if 'A' <= c <= 'Z' then (c as int + 32) as char else c
  }

  /** `strings.ToLower`, restricted to ASCII letters. */
  function ToLower(s: Str): (r: Str)
    ensures |r| == |s|
    ensures forall i :: 0 <= i < |r| ==> r[i] == LowerByte(s[i])
  {
    seq(|s|, i requires 0 <= i < |s| => LowerByte(s[i]))
  }

  /** `strings.Contains`: `sub` occurs in `s` at some offset. */
  predicate Contains(s: Str, sub: Str) {
    exists i :: 0 <= i <= |s| && OccursAt(s, sub, i)
  }

  /** `sub` is the slice of `s` that starts at offset `i`. */
  predicate OccursAt(s: Str, sub: Str, i: nat) {
    i + |sub| <= |s| && s[i..i + |sub|] == sub
  }

  lemma EmptyContained(s: Str)
    ensures Contains(s, "")
  {
    assert OccursAt(s, "", 0);
  }

  function Digit(d: nat): char
    requires d < 10
  {
    "0123456789"[d]
  }

  function DigitValue(c: char): nat {
    if '0' <= c <= '9' then c as int - '0' as int else 0
  }

  /** `fmt.Sprintf("%d", n)` for a non-negative integer. */
  function Decimal(n: nat): (r: Str)
    ensures r != []
    ensures forall i :: 0 <= i < |r| ==> '0' <= r[i] <= '9'
    ensures r[0] == '0' ==> n == 0 && r == "0"
    decreases n
  {
    if n < 10 then [Digit(n)] else Decimal(n / 10) + [Digit(n % 10)]
  }

  /** Reads a string of decimal digits back as a number. */
  function DecimalValue(s: Str): nat
    decreases |s|
  {
    if s == [] then 0 else 10 * DecimalValue(s[..|s| - 1]) + DigitValue(s[|s| - 1])
  }

  lemma DigitRoundTrip(d: nat)
    requires d < 10
    ensures DigitValue(Digit(d)) == d
  {
  }

  lemma {:induction false} DecimalRoundTrip(n: nat)
    ensures DecimalValue(Decimal(n)) == n
    decreases n
  {
    if n >= 10 {
      var q, m := n / 10, n % 10;
      DecimalRoundTrip(q);
      DigitRoundTrip(m);
      var d := Decimal(q) + [Digit(m)];
      assert d[..|d| - 1] == Decimal(q);
      assert DecimalValue(d) == 10 * q + m;
    } else {
      DigitRoundTrip(n);
    }
  }
}
