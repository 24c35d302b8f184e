/** Character classes and string operations shared by the widget scripts
    (JavaScript) and the backend (Python): lower-casing, substring search,
    concatenation of streamed chunks, trimming and whitespace splitting. */
module Text {

  /** Whitespace as JavaScript's `String.prototype.trim` and the regex class
      `\s` see it: WhiteSpace and LineTerminator code points. */
  predicate IsJsSpace(c: char)
  {
    c == '\t' || c == '\n' || c == '\U{000B}' || c == '\U{000C}' || c == '\r' || c == ' '
    || c == '\U{00A0}' || c == '\U{1680}' || ('\U{2000}' <= c <= '\U{200A}')
    || c == '\U{2028}' || c == '\U{2029}' || c == '\U{202F}' || c == '\U{205F}'
    || c == '\U{3000}' || c == '\U{FEFF}'
  }

  /** Whitespace as Python's `str.isspace`, used by `str.split()` and
      `str.strip()` with no argument. */
  predicate IsPySpace(c: char)
  {
    c == '\t' || c == '\n' || c == '\U{000B}' || c == '\U{000C}' || c == '\r'
    || ('\U{001C}' <= c <= '\U{001F}') || c == ' ' || c == '\U{0085}' || c == '\U{00A0}'
    || c == '\U{1680}' || ('\U{2000}' <= c <= '\U{200A}') || c == '\U{2028}' || c == '\U{2029}'
    || c == '\U{202F}' || c == '\U{205F}' || c == '\U{3000}'
  }

  /** ASCII lower-casing of one character (`toLowerCase` restricted to A-Z). */
  function LowerChar(c: char): char
  {
    if 'A' <= c <= 'Z' then (c as int + 32) as char else c
  }

  function Lower(s: string): (r: string)
    ensures |r| == |s|
    ensures forall i :: 0 <= i < |s| ==> r[i] == LowerChar(s[i])
  {
    seq(|s|, i requires 0 <= i < |s| => LowerChar(s[i]))
  }

  /** Lower-casing twice is lower-casing once. */
  lemma LowerIdempotent(s: string)
    ensures Lower(Lower(s)) == Lower(s)
  {
  }

  /** No ASCII capital survives lower-casing. */
  lemma LowerHasNoCapital(s: string)
    ensures forall k :: 0 <= k < |Lower(s)| ==> !('A' <= Lower(s)[k] <= 'Z')
  {
  }

  /** `sub` occurs somewhere in `s`: what a regex made of one literal
      alternative tests. */
  predicate Contains(s: string, sub: string)
    decreases |s|
  {
    sub <= s || (|s| > 0 && Contains(s[1..], sub))
  }

  /** `sub` occurs in `s` at offset `i`. */
  predicate OccursAt(s: string, sub: string, i: int)
  {
    0 <= i && i + |sub| <= |s| && s[i..i + |sub|] == sub
  }

  /** `Contains` finds `sub` exactly when it occurs at some offset. */
  lemma {:induction false} ContainsIffOccurs(s: string, sub: string)
    ensures Contains(s, sub) <==> exists i :: OccursAt(s, sub, i)
    decreases |s|
  {
    if sub <= s {
      assert OccursAt(s, sub, 0);
    } else if |s| == 0 {
      assert forall i :: !OccursAt(s, sub, i);
    } else {
      ContainsIffOccurs(s[1..], sub);
      if exists i :: OccursAt(s[1..], sub, i) {
        var i :| OccursAt(s[1..], sub, i);
        assert s[1..][i..i + |sub|] == s[i + 1..i + 1 + |sub|];
        assert OccursAt(s, sub, i + 1);
      }
      if exists i :: OccursAt(s, sub, i) {
        var i :| OccursAt(s, sub, i);
        assert |sub| <= |s| && s[..|sub|] != sub;
        assert s[0..|sub|] == s[..|sub|];
        assert i != 0;
        assert s[1..][i - 1..i - 1 + |sub|] == s[i..i + |sub|];
        assert OccursAt(s[1..], sub, i - 1);
      }
    }
  }

  /** `t` matches `p` at offset `i` when ASCII letter case is ignored, as a
      regex with the `i` flag compares. */
  predicate MatchesIgnoringCase(t: string, p: string, i: int)
  {
    0 <= i && i + |p| <= |t| && forall k :: 0 <= k < |p| ==> LowerChar(t[i + k]) == LowerChar(p[k])
  }

  /** For a lower-case pattern, searching the lower-cased text is the
      case-insensitive search of `/p/i.test(t)`. */
  lemma ContainsLowerIgnoresCase(t: string, p: string)
    requires forall k :: 0 <= k < |p| ==> LowerChar(p[k]) == p[k]
    ensures Contains(Lower(t), p) <==> exists i :: MatchesIgnoringCase(t, p, i)
  {
    var l := Lower(t);
    ContainsIffOccurs(l, p);
    forall i | 0 <= i && i + |p| <= |t|
      ensures OccursAt(l, p, i) <==> MatchesIgnoringCase(t, p, i)
    {
      if MatchesIgnoringCase(t, p, i) {
        assert l[i..i + |p|] == p by {
          forall k | 0 <= k < |p| ensures l[i..i + |p|][k] == p[k] {
            assert l[i + k] == LowerChar(t[i + k]);
          }
        }
      }
      if OccursAt(l, p, i) {
        forall k | 0 <= k < |p| ensures LowerChar(t[i + k]) == LowerChar(p[k]) {
          assert l[i..i + |p|][k] == l[i + k];
        }
      }
    }
  }

  /** The text a client sees after appending every chunk in arrival order. */
  function Concat(chunks: seq<string>): string
  {
    if chunks == [] then "" else chunks[0] + Concat(chunks[1..])
  }

  lemma {:induction false} ConcatAppend(a: seq<string>, b: seq<string>)
    ensures Concat(a + b) == Concat(a) + Concat(b)
  {
    if a == [] {
      assert a + b == b;
    } else {
      assert (a + b)[1..] == a[1..] + b;
      ConcatAppend(a[1..], b);
    }
  }

  /** Appending one more chunk extends the accumulated text by that chunk. */
  lemma ConcatSnoc(chunks: seq<string>, i: nat)
    requires i < |chunks|
    ensures Concat(chunks[..i + 1]) == Concat(chunks[..i]) + chunks[i]
  {
    assert chunks[..i + 1] == chunks[..i] + [chunks[i]];
    ConcatAppend(chunks[..i], [chunks[i]]);
    assert Concat([chunks[i]]) == chunks[i] + Concat([]);
  }

  /** Number of leading characters of `s` that satisfy `ws`. */
  function LeadingSpace(s: string, ws: char -> bool): (n: nat)
    ensures n <= |s|
    ensures forall k :: 0 <= k < n ==> ws(s[k])
    ensures n < |s| ==> !ws(s[n])
    decreases |s|
  {
    if s == [] || !ws(s[0]) then 0 else 1 + LeadingSpace(s[1..], ws)
  }

  /** Number of trailing characters of `s` that satisfy `ws`. */
  function TrailingSpace(s: string, ws: char -> bool): (n: nat)
    ensures n <= |s|
    ensures forall k :: |s| - n <= k < |s| ==> ws(s[k])
    ensures n < |s| ==> !ws(s[|s| - 1 - n])
    decreases |s|
  {
    if s == [] || !ws(s[|s| - 1]) then 0 else 1 + TrailingSpace(s[..|s| - 1], ws)
  }

  /** `r` sits in `s` at offset `i` with only `ws` characters around it. */
  predicate TrimmedAt(s: string, r: string, i: int, ws: char -> bool)
  {
    0 <= i <= |s| - |r| && r == s[i..i + |r|]
    && (forall k :: 0 <= k < i ==> ws(s[k]))
    && (forall k :: i + |r| <= k < |s| ==> ws(s[k]))
  }

  /** `s` with the leading and trailing `ws` characters removed. */
  function Trim(s: string, ws: char -> bool): (r: string)
    ensures r == [] <==> forall k :: 0 <= k < |s| ==> ws(s[k])
    ensures r != [] ==> !ws(r[0]) && !ws(r[|r| - 1])
    ensures r != [] ==> exists i :: TrimmedAt(s, r, i, ws)
  {
    var a := LeadingSpace(s, ws);
    if a == |s| then []
    else
      var b := TrailingSpace(s, ws);
      assert b < |s| - a;
      var r := s[a..|s| - b];
      assert TrimmedAt(s, r, a, ws);
      r
  }

  /** JavaScript `String.prototype.trim`. */
  function JsTrim(s: string): string
  {
    Trim(s, IsJsSpace)
  }

  /** Python `str.strip()` with no argument. */
  function PyStrip(s: string): string
  {
    Trim(s, IsPySpace)
  }

  /** One element of Python's `str.split()`: non-empty, no whitespace. */
  predicate IsWord(w: string)
  {
    w != [] && forall k :: 0 <= k < |w| ==> !IsPySpace(w[k])
  }

  /** Length of the longest prefix of `s` free of Python whitespace. */
  function WordLength(s: string): (n: nat)
    ensures n <= |s|
    ensures forall k :: 0 <= k < n ==> !IsPySpace(s[k])
    ensures n < |s| ==> IsPySpace(s[n])
    decreases |s|
  {
    if s == [] || IsPySpace(s[0]) then 0 else 1 + WordLength(s[1..])
  }

  /** Python `str.split()` with no argument: the maximal runs of
      non-whitespace characters, in order. */
  function Split(s: string): seq<string>
    decreases |s|
  {
    if s == [] then []
    else if IsPySpace(s[0]) then Split(s[1..])
    else
      var n := WordLength(s);
      [s[..n]] + Split(s[n..])
  }

  /** No piece of `str.split()` is empty or contains whitespace. */
  lemma {:induction false} SplitYieldsWords(s: string)
    ensures forall w :: w in Split(s) ==> IsWord(w)
    decreases |s|
  {
    if s == [] {
    } else if IsPySpace(s[0]) {
      SplitYieldsWords(s[1..]);
    } else {
      var n := WordLength(s);
      SplitYieldsWords(s[n..]);
      assert Split(s) == [s[..n]] + Split(s[n..]);
    }
  }

  /** Reference definition: `s` with every Python whitespace character
      deleted. */
  function WithoutPySpace(s: string): string
  {
    if s == [] then []
    else (if IsPySpace(s[0]) then [] else [s[0]]) + WithoutPySpace(s[1..])
  }

  lemma {:induction false} WithoutPySpaceAppend(a: string, b: string)
    ensures WithoutPySpace(a + b) == WithoutPySpace(a) + WithoutPySpace(b)
  {
    if a == [] {
      assert a + b == b;
    } else {
      assert (a + b)[1..] == a[1..] + b;
      WithoutPySpaceAppend(a[1..], b);
    }
  }

  lemma {:induction false} WithoutPySpaceOfUnspaced(w: string)
    requires forall k :: 0 <= k < |w| ==> !IsPySpace(w[k])
    ensures WithoutPySpace(w) == w
  {
    if w != [] {
      WithoutPySpaceOfUnspaced(w[1..]);
    }
  }

  /** `str.split()` loses nothing but whitespace: its pieces, put back
      together, are the input with every whitespace character deleted. */
  lemma {:induction false} SplitKeepsText(s: string)
    ensures Concat(Split(s)) == WithoutPySpace(s)
    decreases |s|
  {
    if s == [] {
    } else if IsPySpace(s[0]) {
      SplitKeepsText(s[1..]);
    } else {
      var n := WordLength(s);
      SplitKeepsText(s[n..]);
      var ws := [s[..n]] + Split(s[n..]);
      assert ws[1..] == Split(s[n..]);
      assert Concat(ws) == s[..n] + Concat(Split(s[n..]));
      assert s == s[..n] + s[n..];
      WithoutPySpaceAppend(s[..n], s[n..]);
      WithoutPySpaceOfUnspaced(s[..n]);
    }
  }

  /** A word followed by whitespace (or nothing) is split off as one piece. */
  lemma SplitWordThen(w: string, rest: string)
    requires IsWord(w)
    requires rest == [] || IsPySpace(rest[0])
    ensures Split(w + rest) == [w] + Split(rest)
  {
    var s := w + rest;
    WordLengthOfWord(w, rest);
    assert s[..|w|] == w;
    assert s[|w|..] == rest;
  }

  lemma {:induction false} WordLengthOfWord(w: string, rest: string)
    requires forall k :: 0 <= k < |w| ==> !IsPySpace(w[k])
    requires rest == [] || IsPySpace(rest[0])
    ensures WordLength(w + rest) == |w|
    decreases |w|
  {
    if w != [] {
      assert (w + rest)[1..] == w[1..] + rest;
      WordLengthOfWord(w[1..], rest);
    }
  }

  /** Words joined by single spaces, as `" ".join(ws)`. */
  function JoinSpaced(ws: seq<string>): string
  {
    if ws == [] then ""
    else if |ws| == 1 then ws[0]
    else ws[0] + " " + JoinSpaced(ws[1..])
  }

  /** `str.split()` undoes `" ".join` on a list of words. */
  lemma {:induction false} SplitJoinSpaced(ws: seq<string>)
    requires forall i :: 0 <= i < |ws| ==> IsWord(ws[i])
    ensures Split(JoinSpaced(ws)) == ws
  {
    if ws == [] {
    } else if |ws| == 1 {
      SplitWordThen(ws[0], "");
      assert ws[0] + "" == ws[0];
    } else {
      var tail := JoinSpaced(ws[1..]);
      SplitJoinSpaced(ws[1..]);
      assert ws[0] + " " + tail == ws[0] + (" " + tail);
      SplitWordThen(ws[0], " " + tail);
      assert (" " + tail)[1..] == tail;
    }
  }

  /** Each word followed by one space: the text of the chunks
      `token + " "` that a word-by-word stream produces. */
  function SpaceAfterEach(ws: seq<string>): (r: seq<string>)
    ensures |r| == |ws|
    ensures forall i :: 0 <= i < |ws| ==> r[i] == ws[i] + " "
  {
    if ws == [] then [] else [ws[0] + " "] + SpaceAfterEach(ws[1..])
  }

  /** Re-splitting the concatenated `word + " "` chunks gives back the words. */
  lemma {:induction false} SplitSpaceAfterEach(ws: seq<string>)
    requires forall i :: 0 <= i < |ws| ==> IsWord(ws[i])
    ensures Split(Concat(SpaceAfterEach(ws))) == ws
  {
    if ws != [] {
      var tail := Concat(SpaceAfterEach(ws[1..]));
      SplitSpaceAfterEach(ws[1..]);
      assert SpaceAfterEach(ws)[1..] == SpaceAfterEach(ws[1..]);
      assert Concat(SpaceAfterEach(ws)) == ws[0] + " " + tail;
      assert ws[0] + " " + tail == ws[0] + (" " + tail);
      SplitWordThen(ws[0], " " + tail);
      assert (" " + tail)[1..] == tail;
    }
  }
}
