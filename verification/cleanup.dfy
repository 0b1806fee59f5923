/**
 The defensive cleanup the suggestion route applies to the model's reply before
 parsing it: `trim()`, then the regular expression `^[^{]*` removes everything
 before the first `{`, then `[^}]*$` removes everything after the last `}`.
 */
module Cleanup {
  import opened Js

  /** The characters `String.prototype.trim` removes: ECMAScript WhiteSpace
      (tab, vertical tab, form feed, no-break space, byte order mark and the
      Unicode space separators) and LineTerminator. */
  predicate IsWhitespace(c: char) {
    || c == '\t' || c == '\U{000B}' || c == '\U{000C}' || c == ' '
    || c == '\U{00A0}' || c == '\U{FEFF}' || c == '\U{1680}'
    || ('\U{2000}' <= c <= '\U{200A}')
    || c == '\U{202F}' || c == '\U{205F}' || c == '\U{3000}'
    || c == '\n' || c == '\r' || c == '\U{2028}' || c == '\U{2029}'
  }

  /** The first position at or after `i` that does not hold whitespace, or `|s|`. */
  function SkipSpace(s: string, i: nat): (r: nat)
    requires i <= |s|
    ensures i <= r <= |s|
    ensures forall k :: i <= k < r ==> IsWhitespace(s[k])
    ensures r < |s| ==> !IsWhitespace(s[r])
    decreases |s| - i
  {
    if i < |s| && IsWhitespace(s[i]) then SkipSpace(s, i + 1) else i
  }

  /** The end of `s[..e]` once its trailing whitespace is dropped. */
  function BackSpace(s: string, e: nat): (r: nat)
    requires e <= |s|
    ensures r <= e
    ensures forall k :: r <= k < e ==> IsWhitespace(s[k])
    ensures r > 0 ==> !IsWhitespace(s[r - 1])
  {
    if e > 0 && IsWhitespace(s[e - 1]) then BackSpace(s, e - 1) else e
  }

  /** The first position at or after `i` that holds `{`, or `|s|`. */
  function OpenAt(s: string, i: nat): (r: nat)
    requires i <= |s|
    ensures i <= r <= |s|
    ensures forall k :: i <= k < r ==> s[k] != '{'
    ensures r < |s| ==> s[r] == '{'
    decreases |s| - i
  {
    if i < |s| && s[i] != '{' then OpenAt(s, i + 1) else i
  }

  /** The end of `s[..e]` once everything after its last `}` is dropped. */
  function CloseEnd(s: string, e: nat): (r: nat)
    requires e <= |s|
    ensures r <= e
    ensures forall k :: r <= k < e ==> s[k] != '}'
    ensures r > 0 ==> s[r - 1] == '}'
  {
    if e > 0 && s[e - 1] != '}' then CloseEnd(s, e - 1) else e
  }

  /** Leading whitespace removed. */
  function TrimStart(s: string): (r: string)
    ensures |r| <= |s| && r == s[|s| - |r|..]
    ensures r == [] || !IsWhitespace(r[0])
    ensures forall k :: 0 <= k < |s| - |r| ==> IsWhitespace(s[k])
  {
    s[SkipSpace(s, 0)..]
  }

  /** Trailing whitespace removed. */
  function TrimEnd(s: string): (r: string)
    ensures |r| <= |s| && r == s[..|r|]
    ensures r == [] || !IsWhitespace(r[|r| - 1])
    ensures forall k :: |r| <= k < |s| ==> IsWhitespace(s[k])
  {
    s[..BackSpace(s, |s|)]
  }

  /** `String.prototype.trim`. */
  function Trim(s: string): string {
    TrimEnd(TrimStart(s))
  }

  /** `s.replace` with the pattern `^[^{]*`: the suffix starting at the first
      `{`, or the empty string when there is none. */
  function DropBeforeOpen(s: string): (r: string)
    ensures |r| <= |s| && r == s[|s| - |r|..]
    ensures r == [] || r[0] == '{'
    ensures forall k :: 0 <= k < |s| - |r| ==> s[k] != '{'
  {
    s[OpenAt(s, 0)..]
  }

  /** `s.replace` with the pattern `[^}]*$`: the prefix ending at the last
      `}`, or the empty string when there is none. */
  function DropAfterClose(s: string): (r: string)
    ensures |r| <= |s| && r == s[..|r|]
    ensures r == [] || r[|r| - 1] == '}'
    ensures forall k :: |r| <= k < |s| ==> s[k] != '}'
  {
    s[..CloseEnd(s, |s|)]
  }

  /** `text.trim()`, then both replacements: the cleaned text is empty or runs
      from a `{` to a `}`. */
  function Clean(text: string): (r: string)
    ensures r == [] || (r[0] == '{' && r[|r| - 1] == '}')
    ensures |r| <= |text|
  {
    DropAfterClose(DropBeforeOpen(Trim(text)))
  }

  /** Reference description of the cleanup, taken on the raw text in one go:
      from the first `{` of `s` to its last `}`, or empty when no `}` follows
      the first `{`. */
  function BraceSpan(s: string): string {
    var i := OpenAt(s, 0);
    var e := CloseEnd(s, |s|);
    if i < e then s[i..e] else []
  }

  /** The brace span in terms of the two cut positions. */
  lemma BraceSpanBy(s: string, i: nat, e: nat)
    requires i == OpenAt(s, 0) && e == CloseEnd(s, |s|)
    ensures i < e ==> BraceSpan(s) == s[i..e]
    ensures e <= i ==> BraceSpan(s) == []
  {
  }

  /** `OpenAt` is determined by its contract. */
  lemma OpenAtIs(s: string, i: nat, r: nat)
    requires i <= r <= |s|
    requires forall k :: i <= k < r ==> s[k] != '{'
    requires r < |s| ==> s[r] == '{'
    ensures OpenAt(s, i) == r
  {
  }

  /** `CloseEnd` is determined by its contract. */
  lemma CloseEndIs(s: string, e: nat, r: nat)
    requires r <= e <= |s|
    requires forall k :: r <= k < e ==> s[k] != '}'
    requires r > 0 ==> s[r - 1] == '}'
    ensures CloseEnd(s, e) == r
  {
  }

  /** A slice of a slice is a slice of the original. */
  lemma SliceOfSlice(s: string, a: nat, b: nat, o: nat, c: nat)
    requires a <= b <= |s| && o <= c <= b - a
    ensures s[a..b][o..c] == s[a + o..a + c]
  {
    forall k | 0 <= k < c - o ensures s[a..b][o..c][k] == s[a + o..a + c][k] {
    }
  }

  /** The last `}` of a suffix is the last `}` of the whole text, when the
      suffix holds one; otherwise the whole text has none past the cut. */
  lemma CloseOfSuffix(u: string, o: nat)
    requires o <= |u|
    ensures var e := CloseEnd(u[o..], |u| - o);
      && (e > 0 ==> CloseEnd(u, |u|) == o + e)
      && (e == 0 ==> CloseEnd(u, |u|) <= o)
  {
    var v := u[o..];
    var e := CloseEnd(v, |v|);
    forall k | o + e <= k < |u| ensures u[k] != '}' {
      assert u[k] == v[k - o];
    }
    if e > 0 {
      assert u[o + e - 1] == v[e - 1];
      CloseEndIs(u, |u|, o + e);
    }
  }

  /** Cutting the two ends one after the other yields the brace span. */
  lemma StripsCutBraceSpan(u: string)
    ensures DropAfterClose(DropBeforeOpen(u)) == BraceSpan(u)
  {
    var o := OpenAt(u, 0);
    var v := u[o..];
    var e := CloseEnd(v, |v|);
    assert DropAfterClose(DropBeforeOpen(u)) == v[0..e];
    CloseOfSuffix(u, o);
    SliceOfSlice(u, o, |u|, 0, e);
  }

  /** Trimming yields a slice with only whitespace outside it. */
  lemma TrimBounds(text: string) returns (a: nat, b: nat)
    ensures a <= b <= |text| && Trim(text) == text[a..b]
    ensures forall k :: 0 <= k < a ==> IsWhitespace(text[k])
    ensures forall k :: b <= k < |text| ==> IsWhitespace(text[k])
    ensures a < b ==> !IsWhitespace(text[a]) && !IsWhitespace(text[b - 1])
  {
    a := SkipSpace(text, 0);
    var t := text[a..];
    b := a + BackSpace(t, |t|);
    forall k | b <= k < |text| ensures IsWhitespace(text[k]) {
      assert text[k] == t[k - a];
    }
    if a < b {
      assert text[b - 1] == t[b - 1 - a];
    }
  }

  /** No brace occurs in `s[lo..hi]`. */
  predicate BraceFree(s: string, lo: nat, hi: nat)
    requires lo <= hi <= |s|
  {
    forall k :: lo <= k < hi ==> s[k] != '{' && s[k] != '}'
  }

  /** Whitespace holds no brace. */
  lemma WhitespaceIsBraceFree(s: string, lo: nat, hi: nat)
    requires lo <= hi <= |s|
    requires forall k :: lo <= k < hi ==> IsWhitespace(s[k])
    ensures BraceFree(s, lo, hi)
  {
  }

  /** The first `{` of a brace-free-padded text lies in the unpadded part. */
  lemma OpenOfPadded(text: string, a: nat, b: nat)
    requires a <= b <= |text|
    requires BraceFree(text, 0, a) && BraceFree(text, b, |text|)
    ensures var o := OpenAt(text[a..b], 0);
      OpenAt(text, 0) == if o < b - a then a + o else |text|
  {
    var u := text[a..b];
    var o := OpenAt(u, 0);
    if o < |u| {
      forall k | 0 <= k < a + o ensures text[k] != '{' {
        if k >= a { assert text[k] == u[k - a]; }
      }
      assert text[a + o] == u[o];
      OpenAtIs(text, 0, a + o);
    } else {
      forall k | 0 <= k < |text| ensures text[k] != '{' {
        if a <= k < b { assert text[k] == u[k - a]; }
      }
      OpenAtIs(text, 0, |text|);
    }
  }

  /** The last `}` of a brace-free-padded text lies in the unpadded part. */
  lemma CloseOfPadded(text: string, a: nat, b: nat)
    requires a <= b <= |text|
    requires BraceFree(text, 0, a) && BraceFree(text, b, |text|)
    ensures var c := CloseEnd(text[a..b], b - a);
      CloseEnd(text, |text|) == if c > 0 then a + c else 0
  {
    var u := text[a..b];
    var c := CloseEnd(u, |u|);
    if c > 0 {
      forall k | a + c <= k < |text| ensures text[k] != '}' {
        if k < b { assert text[k] == u[k - a]; }
      }
      assert text[a + c - 1] == u[c - 1];
      CloseEndIs(text, |text|, a + c);
    } else {
      forall k | 0 <= k < |text| ensures text[k] != '}' {
        if a <= k < b { assert text[k] == u[k - a]; }
      }
      CloseEndIs(text, |text|, 0);
    }
  }

  /** Padding without braces around a text does not move the span. */
  lemma PaddingKeepsBraceSpan(text: string, a: nat, b: nat)
    requires a <= b <= |text|
    requires BraceFree(text, 0, a) && BraceFree(text, b, |text|)
    ensures BraceSpan(text[a..b]) == BraceSpan(text)
  {
    var u := text[a..b];
    OpenOfPadded(text, a, b);
    CloseOfPadded(text, a, b);
    var o, c := OpenAt(u, 0), CloseEnd(u, b - a);
    var i, e := OpenAt(text, 0), CloseEnd(text, |text|);
    BraceSpanBy(u, o, c);
    BraceSpanBy(text, i, e);
    if o < c {
      assert i == a + o && e == a + c;
      SliceOfSlice(text, a, b, o, c);
    } else {
      assert e <= i;
    }
  }

  /** The cleanup is the brace span of the raw reply: trimming first and
      cutting the two ends one after the other cannot change the outcome. */
  lemma CleanIsBraceSpan(text: string)
    ensures Clean(text) == BraceSpan(text)
  {
    var a, b := TrimBounds(text);
    var u := text[a..b];
    WhitespaceIsBraceFree(text, 0, a);
    WhitespaceIsBraceFree(text, b, |text|);
    assert Clean(text) == DropAfterClose(DropBeforeOpen(u));
    StripsCutBraceSpan(u);
    assert Clean(text) == BraceSpan(u);
    PaddingKeepsBraceSpan(text, a, b);
  }

  /** A reply without any `{` cleans to the empty text. */
  lemma NoOpenBraceCleansToEmpty(text: string)
    requires '{' !in text
    ensures Clean(text) == ""
  {
    CleanIsBraceSpan(text);
    OpenAtIs(text, 0, |text|);
  }

  /** The brace span is empty exactly when no `}` comes after a `{`. */
  lemma BraceSpanEmptyIff(s: string)
    ensures BraceSpan(s) == [] <==>
      forall i, j :: 0 <= i < j < |s| && s[i] == '{' ==> s[j] != '}'
  {
    var i := OpenAt(s, 0);
    var e := CloseEnd(s, |s|);
    if i < e {
      assert s[i] == '{' && s[e - 1] == '}' && i < e - 1;
    } else {
      forall p, q | 0 <= p < q < |s| && s[p] == '{' ensures s[q] != '}' {
        assert i <= p;
      }
    }
  }

  /** The cleanup is empty exactly when no `}` comes after a `{`. */
  lemma CleanEmptyIff(text: string)
    ensures Clean(text) == [] <==>
      forall i, j :: 0 <= i < j < |text| && text[i] == '{' ==> text[j] != '}'
  {
    CleanIsBraceSpan(text);
    BraceSpanEmptyIff(text);
  }

  /** A text that runs from a `{` to a `}` is its own brace span. */
  lemma SpanIsOwnBraceSpan(r: string)
    requires r != [] && r[0] == '{' && r[|r| - 1] == '}'
    ensures BraceSpan(r) == r
  {
    assert OpenAt(r, 0) == 0;
    assert CloseEnd(r, |r|) == |r|;
    assert r[0..|r|] == r;
  }

  /** A text that is empty or runs from a `{` to a `}` is left as it is. */
  lemma CleanKeepsSpan(r: string)
    requires r == [] || (r[0] == '{' && r[|r| - 1] == '}')
    ensures Clean(r) == r
  {
    CleanIsBraceSpan(r);
    if r != [] {
      SpanIsOwnBraceSpan(r);
    }
  }

  /** Cleaning a cleaned text changes nothing. */
  lemma CleanIdempotent(text: string)
    ensures Clean(Clean(text)) == Clean(text)
  {
    CleanKeepsSpan(Clean(text));
  }
}
