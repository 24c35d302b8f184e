/** The widget's rendering of bot text (backend/static/seep-widget.js):
    `stripMd` deletes markdown emphasis marks and `linkify` wraps every
    `http://` or `https://` URL in an anchor. */
module Markup {
  import opened Text

  predicate IsMark(c: char)
  {
    c == '*' || c == '_'
  }

  /** `t.replace(/\*\*|\*|_/g, '')`: the regex scans left to right and tries
      `**` before `*` at each position. */
  function StripMd(s: string): string
    decreases |s|
  {
    if s == [] then []
    else if |s| >= 2 && s[0] == '*' && s[1] == '*' then StripMd(s[2..])
    else if IsMark(s[0]) then StripMd(s[1..])
    else [s[0]] + StripMd(s[1..])
  }

  /** Reference definition: keep every character that is not a mark. */
  function WithoutMarks(s: string): string
  {
    if s == [] then []
    else (if IsMark(s[0]) then [] else [s[0]]) + WithoutMarks(s[1..])
  }

  /** The reference filter keeps only characters of its input, none of
      them a mark, and never lengthens it. */
  lemma {:induction false} WithoutMarksFilters(s: string)
    ensures forall c :: c in WithoutMarks(s) ==> c in s && !IsMark(c)
    ensures |WithoutMarks(s)| <= |s|
    decreases |s|
  {
    if s != [] {
      WithoutMarksFilters(s[1..]);
      assert forall c :: c in s[1..] ==> c in s;
    }
  }

  /** `stripMd` deletes exactly the `*` and `_` characters and keeps every
      other character in order. */
  lemma {:induction false} StripMdIsWithoutMarks(s: string)
    ensures StripMd(s) == WithoutMarks(s)
    decreases |s|
  {
    if s == [] {
    } else if |s| >= 2 && s[0] == '*' && s[1] == '*' {
      StripMdIsWithoutMarks(s[2..]);
      assert s[1..][1..] == s[2..];
      assert WithoutMarks(s[1..]) == WithoutMarks(s[2..]);
    } else {
      StripMdIsWithoutMarks(s[1..]);
    }
  }

  /** The result holds no `*` and no `_`. */
  lemma StripMdHasNoMarks(s: string)
    ensures forall c :: c in StripMd(s) ==> !IsMark(c)
  {
    StripMdIsWithoutMarks(s);
    WithoutMarksFilters(s);
  }

  /** `stripMd(stripMd(t)) == stripMd(t)`. */
  lemma StripMdIdempotent(s: string)
    ensures StripMd(StripMd(s)) == StripMd(s)
  {
    StripMdIsWithoutMarks(s);
    StripMdIsWithoutMarks(StripMd(s));
    WithoutMarksFilters(s);
    var w := WithoutMarks(s);
    assert forall k :: 0 <= k < |w| ==> w[k] in w;
    WithoutMarksOfUnmarked(w);
  }

  /** Length of the longest prefix of `s` free of `\s` characters. */
  function NonSpaceRun(s: string): (n: nat)
    ensures n <= |s|
    ensures forall k :: 0 <= k < n ==> !IsJsSpace(s[k])
    ensures n < |s| ==> IsJsSpace(s[n])
    decreases |s|
  {
    if s == [] || IsJsSpace(s[0]) then 0 else 1 + NonSpaceRun(s[1..])
  }

  /** Length of the match of `https?:\/\/[^\s]+` that starts at the front of
      `s`, or 0 when none does: the scheme, then one or more non-space
      characters, taken greedily. */
  function UrlAt(s: string): (n: nat)
    ensures n == 0 || ("http://" <= s && n >= 8) || ("https://" <= s && n >= 9)
    ensures n <= |s|
    ensures n > 0 ==> (forall k :: 0 <= k < n ==> !IsJsSpace(s[k])) && (n == |s| || IsJsSpace(s[n]))
    ensures ("https://" <= s && |s| > 8 && !IsJsSpace(s[8])) || ("http://" <= s && |s| > 7 && !IsJsSpace(s[7]))
            <==> n > 0
  {
    if ("https://" <= s && |s| > 8 && !IsJsSpace(s[8]))
       || ("http://" <= s && |s| > 7 && !IsJsSpace(s[7]))
    then NonSpaceRun(s)
    else 0
  }

  function Anchor(url: string): string
  {
    "<a href=\"" + url + "\" target=\"_blank\">" + url + "</a>"
  }

  /** `t.replace(/(https?:\/\/[^\s]+)/g, '<a href="$1" target="_blank">$1</a>')`. */
  function Linkify(s: string): string
    decreases |s|
  {
    if s == [] then []
    else
      var n := UrlAt(s);
      if n > 0 then Anchor(s[..n]) + Linkify(s[n..])
      else [s[0]] + Linkify(s[1..])
  }

  /** Text with neither `http://` nor `https://` in it is returned unchanged. */
  lemma {:induction false} LinkifyWithoutUrl(s: string)
    requires !Contains(s, "http://") && !Contains(s, "https://")
    ensures Linkify(s) == s
    decreases |s|
  {
    if s != [] {
      assert UrlAt(s) == 0;
      LinkifyWithoutUrl(s[1..]);
    }
  }

  /** What `addMsg(text, 'bot')` and the streaming update put into a bot
      bubble's HTML. */
  function Render(t: string): string
  {
    Linkify(StripMd(t))
  }

  lemma {:induction false} WithoutMarksAppend(a: string, b: string)
    ensures WithoutMarks(a + b) == WithoutMarks(a) + WithoutMarks(b)
  {
    if a == [] {
      assert a + b == b;
    } else {
      assert (a + b)[1..] == a[1..] + b;
      WithoutMarksAppend(a[1..], b);
    }
  }

  lemma {:induction false} NonSpaceRunOfUnspaced(s: string)
    requires forall k :: 0 <= k < |s| ==> !IsJsSpace(s[k])
    ensures NonSpaceRun(s) == |s|
    decreases |s|
  {
    if s != [] {
      NonSpaceRunOfUnspaced(s[1..]);
    }
  }

  /** A whole `http://` URL with no whitespace becomes one anchor. */
  lemma LinkifyUrl(u: string)
    requires "http://" <= u && |u| > 7
    requires forall k :: 0 <= k < |u| ==> !IsJsSpace(u[k])
    ensures Linkify(u) == Anchor(u)
  {
    NonSpaceRunOfUnspaced(u);
    assert u[..|u|] == u && u[|u|..] == [];
  }

  /** Text without marks is left alone. */
  lemma {:induction false} WithoutMarksOfUnmarked(s: string)
    requires forall k :: 0 <= k < |s| ==> !IsMark(s[k])
    ensures WithoutMarks(s) == s
    decreases |s|
  {
    if s != [] {
      WithoutMarksOfUnmarked(s[1..]);
    }
  }

  /** Deleting one underscore between two runs without marks. */
  lemma StripOneUnderscore(p: string, a: string, b: string)
    requires forall k :: 0 <= k < |p| ==> !IsMark(p[k])
    requires forall k :: 0 <= k < |a| ==> !IsMark(a[k])
    requires forall k :: 0 <= k < |b| ==> !IsMark(b[k])
    ensures StripMd(p + a + "_" + b) == p + a + b
  {
    var s := p + a + "_" + b;
    StripMdIsWithoutMarks(s);
    assert s == (p + a) + ("_" + b);
    WithoutMarksAppend(p + a, "_" + b);
    assert WithoutMarks("_" + b) == WithoutMarks(b) by {
      assert ("_" + b)[0] == '_' && ("_" + b)[1..] == b;
    }
    UnmarkedJoin(p, a);
    WithoutMarksOfUnmarked(p + a);
    WithoutMarksOfUnmarked(b);
  }

  lemma UnmarkedJoin(p: string, a: string)
    requires forall k :: 0 <= k < |p| ==> !IsMark(p[k])
    requires forall k :: 0 <= k < |a| ==> !IsMark(a[k])
    ensures forall k :: 0 <= k < |p + a| ==> !IsMark((p + a)[k])
  {
    forall k | 0 <= k < |p + a|
      ensures !IsMark((p + a)[k])
    {
      if k >= |p| {
        assert (p + a)[k] == a[k - |p|];
      }
    }
  }

  lemma UnspacedJoin(p: string, a: string, b: string)
    requires forall k :: 0 <= k < |p| ==> !IsJsSpace(p[k])
    requires forall k :: 0 <= k < |a| ==> !IsJsSpace(a[k])
    requires forall k :: 0 <= k < |b| ==> !IsJsSpace(b[k])
    ensures forall k :: 0 <= k < |p + a + b| ==> !IsJsSpace((p + a + b)[k])
  {
    var u := p + a + b;
    forall k | 0 <= k < |u|
      ensures !IsJsSpace(u[k])
    {
      if k >= |p| + |a| {
        assert u[k] == b[k - |p| - |a|];
      } else if k >= |p| {
        assert u[k] == a[k - |p|];
      }
    }
  }

  /** Marks are stripped before links are found, so an underscore inside a
      URL is deleted from the link as well as from the text:
      `http://a_b` becomes a link to `http://ab`. */
  lemma UnderscoreInUrlIsDropped(a: string, b: string)
    requires a != []
    requires forall k :: 0 <= k < |a| ==> !IsMark(a[k]) && !IsJsSpace(a[k])
    requires forall k :: 0 <= k < |b| ==> !IsMark(b[k]) && !IsJsSpace(b[k])
    ensures Render("http://" + a + "_" + b) == Anchor("http://" + a + b)
  {
    var scheme := "http://";
    assert forall k :: 0 <= k < |scheme| ==> !IsMark(scheme[k]) && !IsJsSpace(scheme[k]);
    StripOneUnderscore(scheme, a, b);
    UnspacedJoin(scheme, a, b);
    assert scheme <= scheme + a + b;
    LinkifyUrl(scheme + a + b);
  }
}
