/**
 The wildcard-to-regex translation for URI patterns (core/src/deviceService.c:1186-1214) and
 the way its result is used: a POSIX basic regular expression searched for anywhere in a key
 (core/src/database/jsonDatabase.c:1844-1866).
 */
module UriPattern {

  // ----- what a pattern means

  /** The whole text matches the pattern; a star stands for any text. */
  predicate Glob(p: string, s: string)
    decreases |p| + |s|
  {
    if p == [] then s == []
    else if p[0] == '*' then Glob(p[1..], s) || (s != [] && Glob(p, s[1..]))
    else s != [] && s[0] == p[0] && Glob(p[1..], s[1..])
  }

  // ----- basic regular expressions without brackets, anchors and escapes

  predicate Accepts(c: char, x: char) {
    c == '.' || c == x
  }

  /** The whole text matches the expression. */
  predicate Matches(r: string, s: string)
    decreases |r| + |s|
  {
    if r == [] then s == []
    else if |r| >= 2 && r[1] == '*' then
      Matches(r[2..], s) || (s != [] && Accepts(r[0], s[0]) && Matches(r, s[1..]))
    else s != [] && Accepts(r[0], s[0]) && Matches(r[1..], s[1..])
  }

  /** Some part of the text matches, which is what an unanchored search asks. */
  ghost predicate Search(r: string, s: string) {
    exists i, j :: 0 <= i <= j <= |s| && Matches(r, s[i..j])
  }

  /** None of the characters that would make the expression more than literals, dots and stars. */
  predicate Plain(p: string) {
    '[' !in p && '\\' !in p && '^' !in p && '$' !in p
  }

  // ----- the translation

  function Piece(c: char): string {
    if c == '*' then ".*" else [c]
  }

  function Translate(p: string): string {
    if p == [] then [] else Piece(p[0]) + Translate(p[1..])
  }

  function Stars(p: string): nat {
    if p == [] then 0 else Stars(p[..|p| - 1]) + if p[|p| - 1] == '*' then 1 else 0
  }

  lemma {:induction false} TranslateOneMore(p: string, c: char)
    ensures Translate(p + [c]) == Translate(p) + Piece(c)
  {
    if p == [] {
      assert [c][1..] == [];
      assert [] + [c] == [c];
    } else {
      TranslateOneMore(p[1..], c);
      assert (p + [c])[1..] == p[1..] + [c];
    }
  }

  lemma {:induction false} TranslateLength(p: string)
    ensures |Translate(p)| == |p| + Stars(p)
  {
    if p != [] {
      var n := |p| - 1;
      TranslateLength(p[..n]);
      TranslateOneMore(p[..n], p[n]);
      assert p == p[..n] + [p[n]];
    }
  }

  lemma TranslateGrows(p: string, i: nat)
    requires i < |p|
    ensures Translate(p[..i + 1]) == Translate(p[..i]) + Piece(p[i])
    ensures |Translate(p[..i + 1])| <= |Translate(p)|
  {
    TranslateOneMore(p[..i], p[i]);
    assert p[..i] + [p[i]] == p[..i + 1];
    TranslateShorter(p, i + 1);
  }

  lemma {:induction false} TranslateShorter(p: string, i: nat)
    requires i <= |p|
    ensures |Translate(p[..i])| <= |Translate(p)|
    decreases |p| - i
  {
    if i < |p| {
      TranslateShorter(p, i + 1);
      TranslateOneMore(p[..i], p[i]);
      assert p[..i] + [p[i]] == p[..i + 1];
    } else {
      assert p[..i] == p;
    }
  }

  method CountWildcards(uri: string) returns (wildcards: nat)
    ensures |uri| + wildcards == |Translate(uri)|
  {
    wildcards := 0;
    for i := 0 to |uri|
      invariant wildcards == Stars(uri[..i])
    {
      assert uri[..i + 1][..i] == uri[..i];
      if uri[i] == '*' {
        wildcards := wildcards + 1;
      }
    }
    assert uri[..|uri|] == uri;
    TranslateLength(uri);
  }

  /** Counts the wildcards, allocates, fills; the text and its terminator fill the buffer. */
  method CreateRegexFromPattern(uri: string) returns (regex: array<char>)
    ensures regex.Length == |Translate(uri)| + 1
    ensures regex[..] == Translate(uri) + ['\0']
  {
    var wildcards := CountWildcards(uri);
    regex := new char[|uri| + wildcards + 1];
    var j := 0;
    for i := 0 to |uri|
      invariant j == |Translate(uri[..i])| <= |Translate(uri)|
      invariant regex[..j] == Translate(uri[..i])
    {
      ghost var done := regex[..j];
      TranslateGrows(uri, i);
      if uri[i] == '*' {
        regex[j] := '.';
        j := j + 1;
      }
      regex[j] := uri[i];
      j := j + 1;
      assert regex[..j] == done + Piece(uri[i]);
    }
    assert uri[..|uri|] == uri;
    regex[j] := '\0';
  }

  // ----- full match: exact without dots

  lemma TranslateHead(p: string)
    requires p != []
    ensures p[0] == '*' ==> Translate(p) == ['.', '*'] + Translate(p[1..])
    ensures p[0] != '*' ==> Translate(p) == [p[0]] + Translate(p[1..])
    ensures |Translate(p)| >= 1 && Translate(p)[0] != '*'
  {
  }

  lemma {:induction false} DotlessIsGlob(p: string, s: string)
    requires '.' !in p
    ensures Matches(Translate(p), s) <==> Glob(p, s)
    decreases |p| + |s|
  {
    if p != [] {
      TranslateHead(p);
      var r := Translate(p);
      if p[0] == '*' {
        assert r[2..] == Translate(p[1..]);
        DotlessIsGlob(p[1..], s);
        if s != [] {
          DotlessIsGlob(p, s[1..]);
        }
      } else {
        assert r[1..] == Translate(p[1..]);
        if p[1..] != [] {
          TranslateHead(p[1..]);
        }
        if s != [] {
          DotlessIsGlob(p[1..], s[1..]);
        }
      }
    }
  }

  /** The pattern with its stars taken out and every other dot replaced. */
  function Instance(p: string, dot: char): string {
    if p == [] then []
    else if p[0] == '*' then Instance(p[1..], dot)
    else [if p[0] == '.' then dot else p[0]] + Instance(p[1..], dot)
  }

  lemma {:induction false} InstanceMatches(p: string, dot: char)
    ensures Matches(Translate(p), Instance(p, dot))
    ensures dot == '.' ==> Glob(p, Instance(p, dot))
  {
    if p != [] {
      TranslateHead(p);
      InstanceMatches(p[1..], dot);
      var r, s := Translate(p), Instance(p, dot);
      if p[0] == '*' {
        assert r[2..] == Translate(p[1..]);
      } else {
        assert r[1..] == Translate(p[1..]);
        assert s[1..] == Instance(p[1..], dot);
        if p[1..] != [] {
          TranslateHead(p[1..]);
        }
      }
    }
  }

  function Dots(s: string): nat {
    if s == [] then 0 else Dots(s[1..]) + if s[0] == '.' then 1 else 0
  }

  lemma {:induction false} DotsCount(s: string)
    ensures Dots(s) > 0 <==> '.' in s
  {
    if s != [] {
      DotsCount(s[1..]);
      assert s == [s[0]] + s[1..];
    }
  }

  lemma {:induction false} GlobNeedsDots(p: string, s: string)
    requires Glob(p, s)
    ensures Dots(s) >= Dots(p)
    decreases |p| + |s|
  {
    if p != [] {
      if p[0] != '*' {
        GlobNeedsDots(p[1..], s[1..]);
      } else if Glob(p[1..], s) {
        GlobNeedsDots(p[1..], s);
      } else {
        GlobNeedsDots(p, s[1..]);
      }
    }
  }

  lemma {:induction false} InstanceDotless(p: string, dot: char)
    requires dot != '.'
    ensures '.' !in Instance(p, dot)
  {
    if p != [] {
      InstanceDotless(p[1..], dot);
    }
  }

  /** A dot in the pattern also matches other characters. */
  lemma DotOvermatches(p: string) returns (s: string)
    requires '.' in p
    ensures Matches(Translate(p), s) && !Glob(p, s)
  {
    s := Instance(p, '-');
    InstanceMatches(p, '-');
    InstanceDotless(p, '-');
    DotsCount(p);
    DotsCount(s);
    if Glob(p, s) {
      GlobNeedsDots(p, s);
    }
  }

  /** The translation preserves meaning, text for text, exactly for patterns without a dot. */
  lemma TranslationExactIff(p: string)
    requires Plain(p)
    ensures (forall s :: Matches(Translate(p), s) <==> Glob(p, s)) <==> '.' !in p
  {
    if '.' in p {
      var s := DotOvermatches(p);
    } else {
      forall s
        ensures Matches(Translate(p), s) <==> Glob(p, s)
      {
        DotlessIsGlob(p, s);
      }
    }
  }

  // ----- search: exact only between stars

  lemma {:induction false} AbsorbBefore(p: string, x: string, s: string)
    requires p != [] && p[0] == '*' && Glob(p, s)
    ensures Glob(p, x + s)
    decreases |x|
  {
    if x == [] {
      assert x + s == s;
    } else {
      AbsorbBefore(p, x[1..], s);
      assert (x + s)[1..] == x[1..] + s;
    }
  }

  lemma {:induction false} StarTakesAll(s: string)
    ensures Glob("*", s)
  {
    if s != [] {
      StarTakesAll(s[1..]);
    } else {
      assert Glob("*"[1..], s);
    }
  }

  lemma {:induction false} AbsorbAfter(p: string, s: string, y: string)
    requires p != [] && p[|p| - 1] == '*' && Glob(p, s)
    ensures Glob(p, s + y)
    decreases |p| + |s|
  {
    if |p| == 1 {
      assert p == "*";
      StarTakesAll(s + y);
    } else if p[0] != '*' {
      AbsorbAfter(p[1..], s[1..], y);
      assert (s + y)[1..] == s[1..] + y;
    } else if Glob(p[1..], s) {
      AbsorbAfter(p[1..], s, y);
    } else {
      AbsorbAfter(p, s[1..], y);
      assert (s + y)[1..] == s[1..] + y;
    }
  }

  lemma {:induction false} LastIsLiteral(p: string, s: string)
    requires p != [] && p[|p| - 1] != '*' && Glob(p, s)
    ensures s != [] && s[|s| - 1] == p[|p| - 1]
    decreases |p| + |s|
  {
    if p[0] == '*' {
      if Glob(p[1..], s) {
        LastIsLiteral(p[1..], s);
      } else {
        LastIsLiteral(p, s[1..]);
      }
    } else if |p| > 1 {
      LastIsLiteral(p[1..], s[1..]);
    } else {
      assert Glob(p[1..], s[1..]) && p[1..] == [];
    }
  }

  lemma SearchPart(r: string, x: string, s: string, y: string)
    requires Matches(r, s)
    ensures Search(r, x + s + y)
  {
    var all := x + s + y;
    assert all[|x|..|x| + |s|] == s;
  }

  /** A character other than the given one. */
  function Other(c: char): char {
    if c == 'a' then 'b' else 'a'
  }

  lemma UnanchoredOvermatches(p: string) returns (s: string)
    requires p == [] || p[0] != '*' || p[|p| - 1] != '*'
    ensures Search(Translate(p), s) && !Glob(p, s)
  {
    var inner := Instance(p, '.');
    InstanceMatches(p, '.');
    if p == [] {
      s := "a";
      SearchPart(Translate(p), [], inner, s);
      assert [] + inner + s == s;
    } else if p[0] != '*' {
      s := [Other(p[0])] + inner;
      SearchPart(Translate(p), [Other(p[0])], inner, []);
      assert [Other(p[0])] + inner + [] == s;
    } else {
      var c := p[|p| - 1];
      s := inner + [Other(c)];
      SearchPart(Translate(p), [], inner, [Other(c)]);
      assert [] + inner + [Other(c)] == s;
      if Glob(p, s) {
        LastIsLiteral(p, s);
      }
    }
  }

  lemma SearchBetweenStars(p: string, s: string)
    requires p != [] && p[0] == '*' && p[|p| - 1] == '*' && '.' !in p
    ensures Search(Translate(p), s) <==> Glob(p, s)
  {
    if Glob(p, s) {
      DotlessIsGlob(p, s);
      assert s[0..|s|] == s;
    }
    if i, j :| 0 <= i <= j <= |s| && Matches(Translate(p), s[i..j]) {
      DotlessIsGlob(p, s[i..j]);
      AbsorbBefore(p, s[..i], s[i..j]);
      AbsorbAfter(p, s[..i] + s[i..j], s[j..]);
      assert s[..i] + s[i..j] + s[j..] == s;
    }
  }

  /** As the database uses it, the produced expression finds exactly the keys the pattern means
      only when the pattern begins and ends with a star and has no dot. */
  lemma SearchExactIff(p: string)
    requires Plain(p)
    ensures (forall s :: Search(Translate(p), s) <==> Glob(p, s)) <==>
            p != [] && p[0] == '*' && p[|p| - 1] == '*' && '.' !in p
  {
    if p == [] || p[0] != '*' || p[|p| - 1] != '*' {
      var s := UnanchoredOvermatches(p);
    } else if '.' in p {
      var s := DotOvermatches(p);
      SearchPart(Translate(p), [], s, []);
      assert [] + s + [] == s;
    } else {
      forall s
        ensures Search(Translate(p), s) <==> Glob(p, s)
      {
        SearchBetweenStars(p, s);
      }
    }
  }

  /** It never misses a key: the search finds at least what the pattern means. */
  lemma {:induction false} MatchesWhereGlob(p: string, s: string)
    requires Glob(p, s)
    ensures Matches(Translate(p), s)
    decreases |p| + |s|
  {
    if p != [] {
      TranslateHead(p);
      var r := Translate(p);
      if p[0] == '*' {
        assert r[2..] == Translate(p[1..]);
        if Glob(p[1..], s) {
          MatchesWhereGlob(p[1..], s);
        } else {
          MatchesWhereGlob(p, s[1..]);
        }
      } else {
        assert r[1..] == Translate(p[1..]);
        if p[1..] != [] {
          TranslateHead(p[1..]);
        }
        MatchesWhereGlob(p[1..], s[1..]);
      }
    }
  }

  lemma SearchNeverMisses(p: string, s: string)
    requires Plain(p) && Glob(p, s)
    ensures Search(Translate(p), s)
  {
    MatchesWhereGlob(p, s);
    SearchPart(Translate(p), [], s, []);
    assert [] + s + [] == s;
  }
}
