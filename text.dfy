/**
 The three string operations the handlers rely on: `str.lower()` (for the menu
 routing), `str.strip()` (for the search query) and the substring test `p in s`
 together with `s.startswith(p)`.
 */
module Text {

  /** The characters for which Python's `str.isspace()` holds; `str.strip()`
      with no argument removes exactly these from both ends. */
  predicate IsSpace(c: char) {
    || c == ' '
    || ('\t' <= c <= '\r')               // \t \n \v \f \r
    || ('\U{1C}' <= c <= '\U{1F}')       // the four information separators
    || c == '\U{85}' || c == '\U{A0}' || c == '\U{1680}'
    || ('\U{2000}' <= c <= '\U{200A}')
    || c == '\U{2028}' || c == '\U{2029}' || c == '\U{202F}'
    || c == '\U{205F}' || c == '\U{3000}'
  }

  predicate IsUpper(c: char) {
    'A' <= c <= 'Z'
  }

  function LowerChar(c: char): (r: char)
    ensures !IsUpper(r)
    ensures !IsUpper(c) ==> r == c
    ensures IsUpper(c) ==> 'a' <= r <= 'z' && r as int == c as int + 32
  {
    if IsUpper(c) then (c as int + 32) as char else c
  }

  /** `s.lower()`, restricted to the ASCII letters. */
  function Lower(s: string): (r: string)
    ensures |r| == |s|
    ensures forall i :: 0 <= i < |r| ==> !IsUpper(r[i])
    ensures forall i :: 0 <= i < |s| && !IsUpper(s[i]) ==> r[i] == s[i]
    ensures forall i :: 0 <= i < |s| && IsUpper(s[i]) ==> r[i] as int == s[i] as int + 32
  {
    seq(|s|, i requires 0 <= i < |s| => LowerChar(s[i]))
  }

  /** Lower-casing twice is lower-casing once. */
  lemma LowerIdempotent(s: string)
    ensures Lower(Lower(s)) == Lower(s)
  {
  }

  /** Drops the leading whitespace. */
  function TrimStart(s: string): (r: string)
    ensures |r| <= |s| && r == s[|s| - |r|..]
    ensures forall i :: 0 <= i < |s| - |r| ==> IsSpace(s[i])
    ensures r != [] ==> !IsSpace(r[0])
  {
    if s != [] && IsSpace(s[0]) then TrimStart(s[1..]) else s
  }

  /** Drops the trailing whitespace. */
  function TrimEnd(s: string): (r: string)
    ensures |r| <= |s| && r == s[..|r|]
    ensures forall i :: |r| <= i < |s| ==> IsSpace(s[i])
    ensures r != [] ==> !IsSpace(r[|r| - 1])
  {
    if s != [] && IsSpace(s[|s| - 1]) then TrimEnd(s[..|s| - 1]) else s
  }

  /** What is known of `r` when `t` is `s` without its leading whitespace and
      `r` is `t` without its trailing whitespace. */
  lemma TrimmedSlice(s: string, t: string, r: string)
    requires |t| <= |s| && t == s[|s| - |t|..]
    requires AllSpace(s[..|s| - |t|])
    requires t != [] ==> !IsSpace(t[0])
    requires |r| <= |t| && r == t[..|r|]
    requires AllSpace(t[|r|..])
    requires r != [] ==> !IsSpace(r[|r| - 1])
    ensures r == [] || (!IsSpace(r[0]) && !IsSpace(r[|r| - 1]))
    ensures r == [] <==> AllSpace(s)
    ensures OccursAt(s, r, |s| - |t|)
    ensures AllSpace(s[|s| - |t| + |r|..])
  {
    var k := |s| - |t|;
    assert s[k + |r|..] == t[|r|..];
    if r == [] {
      assert t == [];
      forall i | 0 <= i < |s| ensures IsSpace(s[i]) {
        assert s[..k][i] == s[i];
      }
    } else {
      assert r[0] == t[0];
    }
  }

  /** `s.strip()`: a slice of `s` that neither starts nor ends with
      whitespace; StripDropsOnlySpace shows that everything around it is
      whitespace. */
  function Strip(s: string): (r: string)
    ensures r == [] || (!IsSpace(r[0]) && !IsSpace(r[|r| - 1]))
    ensures r == [] <==> AllSpace(s)
    ensures exists k :: OccursAt(s, r, k)
  {
    var t := TrimStart(s);
    var r := TrimEnd(t);
    TrimStartDropsSpace(s);
    TrimEndDropsSpace(t);
    TrimmedSlice(s, t, r);
    r
  }

  predicate AllSpace(s: string) {
    forall i :: 0 <= i < |s| ==> IsSpace(s[i])
  }

  lemma TrimStartDropsSpace(s: string)
    ensures AllSpace(s[..|s| - |TrimStart(s)|])
  {
    var head := s[..|s| - |TrimStart(s)|];
    assert forall i :: 0 <= i < |head| ==> head[i] == s[i];
  }

  lemma TrimEndDropsSpace(t: string)
    ensures AllSpace(t[|TrimEnd(t)|..])
  {
    var tail := t[|TrimEnd(t)|..];
    assert forall i :: 0 <= i < |tail| ==> tail[i] == t[|TrimEnd(t)| + i];
  }

  /** What strip removes, on either side of the result, is whitespace. */
  lemma StripDropsOnlySpace(s: string)
    ensures exists k :: OccursAt(s, Strip(s), k) && AllSpace(s[..k]) && AllSpace(s[k + |Strip(s)|..])
  {
    var t := TrimStart(s);
    var r := TrimEnd(t);
    TrimStartDropsSpace(s);
    TrimEndDropsSpace(t);
    TrimmedSlice(s, t, r);
    assert r == Strip(s);
    var k := |s| - |t|;
    assert OccursAt(s, r, k) && AllSpace(s[..k]) && AllSpace(s[k + |r|..]);
  }

  lemma {:induction false} TrimStartPadded(pad: string, m: string)
    requires AllSpace(pad)
    requires m == [] || !IsSpace(m[0])
    ensures TrimStart(pad + m) == m
    decreases |pad|
  {
    if pad == [] {
      assert pad + m == m;
    } else {
      assert (pad + m)[1..] == pad[1..] + m;
      TrimStartPadded(pad[1..], m);
    }
  }

  lemma {:induction false} TrimEndPadded(m: string, pad: string)
    requires AllSpace(pad)
    requires m == [] || !IsSpace(m[|m| - 1])
    ensures TrimEnd(m + pad) == m
    decreases |pad|
  {
    if pad == [] {
      assert m + pad == m;
    } else {
      assert (m + pad)[..|m + pad| - 1] == m + pad[..|pad| - 1];
      TrimEndPadded(m, pad[..|pad| - 1]);
    }
  }

  /** Strip removes exactly the surrounding whitespace: a text that neither
      starts nor ends with whitespace comes back out of any padding. */
  lemma StripPadded(before: string, m: string, after: string)
    requires AllSpace(before) && AllSpace(after)
    requires m == [] || (!IsSpace(m[0]) && !IsSpace(m[|m| - 1]))
    ensures Strip(before + m + after) == m
  {
    if m == [] {
      assert before + m + after == before + after;
      assert AllSpace(before + after);
      assert (before + after) + [] == before + after;
      TrimStartPadded(before + after, []);
      assert TrimStart(before + m + after) == [];
    } else {
      assert before + m + after == before + (m + after);
      assert (m + after)[0] == m[0];
      TrimStartPadded(before, m + after);
      TrimEndPadded(m, after);
    }
  }

  /** Stripping twice is stripping once. */
  lemma StripIdempotent(s: string)
    ensures Strip(Strip(s)) == Strip(s)
  {
    var r := Strip(s);
    assert TrimStart(r) == r;
    assert TrimEnd(r) == r;
  }

  /** `s.startswith(p)`. */
  predicate StartsWith(s: string, p: string) {
    |p| <= |s| && s[..|p|] == p
  }

  /** `pat` occurs in `text` starting at position `i`. */
  predicate OccursAt(text: string, pat: string, i: int) {
    0 <= i <= |text| - |pat| && text[i..i + |pat|] == pat
  }

  /** Python's `pat in text`. */
  predicate Contains(text: string, pat: string) {
    exists i | 0 <= i <= |text| - |pat| :: OccursAt(text, pat, i)
  }

}
