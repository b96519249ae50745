/**
 Embedding a script as a C++ raw string literal (scripts/embed-js-as-header.py): the search
 for a delimiter that does not occur in the text, and the raw-string lexing rules of
 section 5.13.5 of ISO/IEC 14882:2017 that read the literal back.
 */
module RawLiteral {
  import opened Basics
  import opened Decimal

  const MAX_DELIMITER: nat := 16
  /** Number of counters that print with exactly 13 digits. */
  const THIRTEEN_DIGIT_COUNTERS: nat := 9_000_000_000_000

  predicate OccursAt(pat: string, s: string, i: int) {
    0 <= i <= |s| - |pat| && s[i..i + |pat|] == pat
  }

  predicate Occurs(pat: string, s: string) {
    exists i :: 0 <= i <= |s| - |pat| && OccursAt(pat, s, i)
  }

  function Delimiter(counter: nat): string {
    if counter == 0 then "JS" else "JS" + Print(counter)
  }

  // ----- the C++ side: reading a raw string literal

  predicate IsDChar(c: char) {
    c !in {' ', '(', ')', '\\', '\t', '\n', '\U{0B}', '\U{0C}'}
  }

  /** Number of leading characters of s allowed in a raw-string delimiter. */
  function DCharSpan(s: string): (n: nat)
    ensures n <= |s|
    ensures forall i :: 0 <= i < n ==> IsDChar(s[i])
    ensures n < |s| ==> !IsDChar(s[n])
  {
    if s == [] || !IsDChar(s[0]) then 0 else 1 + DCharSpan(s[1..])
  }

  /** First place where pat occurs in s at or after from. */
  function FindFrom(pat: string, s: string, from: nat): (r: Option<nat>)
    requires from <= |s|
    ensures r.Some? ==> from <= r.value && OccursAt(pat, s, r.value)
    ensures r.Some? ==> forall i :: from <= i < r.value ==> !OccursAt(pat, s, i)
    ensures r.None? ==> forall i :: from <= i ==> !OccursAt(pat, s, i)
    decreases |s| - from
  {
    if OccursAt(pat, s, from) then Some(from)
    else if from == |s| then None
    else FindFrom(pat, s, from + 1)
  }

  datatype Lexed = Malformed | Literal(text: string, rest: string)

  /** Reads one raw string literal from the front of the source text. */
  function LexRaw(src: string): Lexed {
    if |src| < 2 || src[..2] != "R\"" then Malformed
    else
      var body := src[2..];
      var n := DCharSpan(body);
      if n > MAX_DELIMITER || n == |body| || body[n] != '(' then Malformed
      else
        var closer := Closer(body[..n]);
        var rest := body[n + 1..];
        match FindFrom(closer, rest, 0)
        case None => Malformed
        case Some(q) => Literal(rest[..q], rest[q + |closer|..])
  }

  function Emit(text: string, delimiter: string): string {
    "R\"" + delimiter + "(" + text + ")" + delimiter + "\""
  }

  predicate ValidDelimiter(d: string) {
    |d| <= MAX_DELIMITER && forall i :: 0 <= i < |d| ==> IsDChar(d[i])
  }

  lemma {:induction false} DCharSpanStops(d: string, rest: string)
    requires forall i :: 0 <= i < |d| ==> IsDChar(d[i])
    ensures DCharSpan(d + "(" + rest) == |d|
  {
    var s := d + "(" + rest;
    assert s[|d|] == '(';
    assert forall i :: 0 <= i < |d| ==> s[i] == d[i];
  }

  function Closer(d: string): string {
    ")" + d + "\""
  }

  /** A delimiter that is absent from the text keeps the whole closing sequence out of it. */
  lemma AbsentDelimiterAbsentCloser(text: string, d: string)
    requires !Occurs(d, text)
    ensures !Occurs(Closer(d), text)
  {
    forall i | 0 <= i <= |text| - |Closer(d)|
      ensures !OccursAt(Closer(d), text, i)
    {
      assert !OccursAt(d, text, i + 1);
      assert Closer(d)[1..1 + |d|] == d;
      assert text[i..i + |Closer(d)|][1..1 + |d|] == text[i + 1..i + 1 + |d|];
    }
  }

  /** Where the closing sequence can start in the text followed by it: only inside the text
      itself or right after it, since it cannot overlap its own opening parenthesis. */
  lemma CloserPlaces(text: string, d: string, tail: string, i: nat)
    requires ValidDelimiter(d)
    requires i < |text|
    ensures OccursAt(Closer(d), text + Closer(d) + tail, i) <==> OccursAt(Closer(d), text, i)
  {
    var c := Closer(d);
    var s := text + c + tail;
    if i + |c| <= |text| {
      assert s[i..i + |c|] == text[i..i + |c|];
    } else {
      var k := |text| - i;
      assert s[|text|] == ')' != c[k];
      assert s[i..i + |c|][k] == s[|text|];
    }
  }

  lemma EmitShape(text: string, d: string, tail: string)
    ensures var src := Emit(text, d) + tail;
            |src| >= 2 && src[..2] == "R\"" && src[2..] == d + "(" + (text + Closer(d) + tail)
  {
    assert Emit(text, d) + tail == "R\"" + (d + "(" + (text + Closer(d) + tail));
  }

  lemma BodyShape(d: string, rest: string)
    requires ValidDelimiter(d)
    ensures var body := d + "(" + rest;
            DCharSpan(body) == |d| < |body| && body[|d|] == '(' && body[..|d|] == d && body[|d| + 1..] == rest
  {
    DCharSpanStops(d, rest);
  }

  /** What the lexer looks for is the closing sequence of the emitted delimiter. */
  lemma LexSearches(text: string, d: string, tail: string)
    requires ValidDelimiter(d)
    ensures var c, rest := Closer(d), text + Closer(d) + tail;
            LexRaw(Emit(text, d) + tail) ==
            match FindFrom(c, rest, 0) { case None => Malformed case Some(q) => Literal(rest[..q], rest[q + |c|..]) }
  {
    EmitShape(text, d, tail);
    BodyShape(d, text + Closer(d) + tail);
  }

  lemma FirstCloser(text: string, d: string, tail: string)
    requires ValidDelimiter(d)
    ensures FindFrom(Closer(d), text + Closer(d) + tail, 0) == Some(|text|) <==> !Occurs(Closer(d), text)
    ensures FindFrom(Closer(d), text + Closer(d) + tail, 0).Some?
  {
    var c := Closer(d);
    var rest := text + c + tail;
    forall i: nat | i < |text|
      ensures OccursAt(c, rest, i) <==> OccursAt(c, text, i)
    {
      CloserPlaces(text, d, tail, i);
    }
    assert rest[|text|..|text| + |c|] == c;
    assert OccursAt(c, rest, |text|);
  }

  /** The exact condition: the emitted literal reads back as the text, whatever follows it,
      if and only if the closing sequence does not occur in the text. */
  lemma LexEmit(text: string, d: string, tail: string)
    requires ValidDelimiter(d)
    ensures LexRaw(Emit(text, d) + tail) == Literal(text, tail) <==> !Occurs(Closer(d), text)
  {
    var c := Closer(d);
    var rest := text + c + tail;
    LexSearches(text, d, tail);
    FirstCloser(text, d, tail);
    assert rest[..|text|] == text;
    assert rest[|text| + |c|..] == tail;
  }

  // ----- the search

  lemma DelimiterLength(counter: nat)
    requires counter < Pow10(14)
    ensures |Delimiter(counter)| <= MAX_DELIMITER
    ensures |Delimiter(counter)| < MAX_DELIMITER <==> counter < Pow10(13)
    ensures Pow10(12) <= counter < Pow10(13) ==> |Delimiter(counter)| == 15
  {
    PrintLength(counter, 14);
    PrintLength(counter, 13);
    PrintLength(counter, 12);
    assert Pow10(13) == 10 * Pow10(12);
  }

  lemma DelimiterChars(counter: nat)
    ensures forall i :: 0 <= i < |Delimiter(counter)| ==> IsDChar(Delimiter(counter)[i])
  {
    PrintRoundTrip(counter);
    forall c: char | IsDigit(c) ensures IsDChar(c) {}
  }

  lemma DelimiterShape(counter: nat)
    requires counter < Pow10(14)
    ensures ValidDelimiter(Delimiter(counter))
    ensures |Delimiter(counter)| < MAX_DELIMITER <==> counter < Pow10(13)
    ensures Pow10(12) <= counter < Pow10(13) ==> |Delimiter(counter)| == 15
  {
    DelimiterLength(counter);
    DelimiterChars(counter);
  }

  /** Delimiters of one length at one place are the same, so are their counters. */
  lemma SamePlaceSameCounter(text: string, j: nat, k: nat, i: int)
    requires 0 < j && 0 < k && |Delimiter(j)| == |Delimiter(k)|
    requires OccursAt(Delimiter(j), text, i) && OccursAt(Delimiter(k), text, i)
    ensures j == k
  {
    assert Delimiter(j)[2..] == Print(j) && Delimiter(k)[2..] == Print(k);
    PrintInjective(j, k);
  }

  /** An injection from a range of b - a numbers into a range of m numbers needs b - a <= m. */
  lemma {:induction false} Pigeonhole(f: int -> int, a: int, b: int, m: nat)
    requires a <= b
    requires forall i :: a <= i < b ==> 0 <= f(i) < m
    requires forall i, j :: a <= i < j < b ==> f(i) != f(j)
    ensures b - a <= m
    decreases m
  {
    if m == 0 {
      assert a < b ==> 0 <= f(a) < 0;
    } else if forall i :: a <= i < b ==> f(i) != m - 1 {
      Pigeonhole(f, a, b, m - 1);
    } else {
      // Give the value that the preimage of m - 1 frees to the last number of the range.
      var k :| a <= k < b && f(k) == m - 1;
      var last := f(b - 1);
      var g := (i: int) => if i == k then last else f(i);
      Pigeonhole(g, a, b - 1, m - 1);
    }
  }

  /** A text no longer than the number of 13-digit counters misses one of their delimiters. */
  lemma SomeDelimiterAbsent(text: string)
    requires |text| <= THIRTEEN_DIGIT_COUNTERS
    ensures exists k: nat :: Pow10(12) <= k < Pow10(13) && !Occurs(Delimiter(k), text)
  {
    if forall k: nat :: Pow10(12) <= k < Pow10(13) ==> Occurs(Delimiter(k), text) {
      ghost var place: int -> int := (k: int) =>
        if k >= 0 && Occurs(Delimiter(k), text)
        then (var i :| 0 <= i <= |text| - |Delimiter(k)| && OccursAt(Delimiter(k), text, i); i)
        else 0;
      var lo, hi := Pow10(12), Pow10(13);
      Pow10Values();
      forall k | lo <= k < hi
        ensures 0 <= place(k) < |text| - 14 && OccursAt(Delimiter(k), text, place(k)) && |Delimiter(k)| == 15
      {
        DelimiterShape(k);
      }
      assert |text| >= 15 by {
        assert 0 <= place(lo) < |text| - 14;
      }
      forall j, k | lo <= j < k < hi
        ensures place(j) != place(k)
      {
        if place(j) == place(k) {
          SamePlaceSameCounter(text, j, k, place(j));
        }
      }
      Pigeonhole(place, lo, hi, |text| - 14);
      assert false;
    }
  }

  lemma Pow10Values()
    ensures Pow10(12) == 1_000_000_000_000 && Pow10(13) == 10_000_000_000_000
    ensures Pow10(14) == 100_000_000_000_000
  {
    assert Pow10(4) == 10_000;
    assert Pow10(8) == 100_000_000;
    assert Pow10(12) == 1_000_000_000_000;
  }

  /** The counter search: first counter whose delimiter is absent, or the length limit. */
  method CounterSearch(content: string) returns (delimiter: string, counter: nat)
    ensures delimiter == Delimiter(counter) && ValidDelimiter(delimiter)
    ensures forall j: nat :: j < counter ==> Occurs(Delimiter(j), content)
    ensures Occurs(delimiter, content) ==> |delimiter| == MAX_DELIMITER
    ensures |content| <= THIRTEEN_DIGIT_COUNTERS ==> !Occurs(delimiter, content) && |delimiter| <= 15
  {
    delimiter := "JS";
    counter := 0;
    Pow10Values();
    while Occurs(delimiter, content) && |delimiter| < 16
      invariant counter <= Pow10(13)
      invariant delimiter == Delimiter(counter)
      invariant forall j: nat :: j < counter ==> Occurs(Delimiter(j), content)
      decreases Pow10(13) - counter
    {
      DelimiterShape(counter);
      counter := counter + 1;
      delimiter := "JS" + Print(counter);
    }
    DelimiterShape(counter);
    if |content| <= THIRTEEN_DIGIT_COUNTERS {
      SomeDelimiterAbsent(content);
      var k: nat :| Pow10(12) <= k < Pow10(13) && !Occurs(Delimiter(k), content);
      assert counter <= k;
    }
  }

  /** The literal written into the header for a text within the bound. */
  method EmbedLiteral(content: string) returns (literal: string)
    requires |content| <= THIRTEEN_DIGIT_COUNTERS
    ensures forall tail: string :: LexRaw(literal + tail) == Literal(content, tail)
  {
    var delimiter, counter := CounterSearch(content);
    literal := Emit(content, delimiter);
    forall tail: string
      ensures LexRaw(literal + tail) == Literal(content, tail)
    {
      AbsentDelimiterAbsentCloser(content, delimiter);
      LexEmit(content, delimiter, tail);
    }
  }
}
