/** Python's string operations that the audit rules rely on: substring test,
    `sep.join(parts)` and slicing to a maximum length. */
module Text {

  /** Python's `needle in s` on strings: `needle` occurs contiguously in `s`. */
  predicate Contains(s: string, needle: string)
    decreases |s|
  {
    needle <= s || (|s| > 0 && Contains(s[1..], needle))
  }

  /** An occurrence at any position is found. */
  lemma {:induction false} ContainsAt(s: string, needle: string, i: nat)
    requires i + |needle| <= |s| && s[i..i + |needle|] == needle
    ensures Contains(s, needle)
  {
    if i == 0 {
      assert needle <= s;
    } else {
      assert s[1..][i - 1..i - 1 + |needle|] == s[i..i + |needle|];
      ContainsAt(s[1..], needle, i - 1);
    }
  }

  /** A needle whose first character never occurs in `s` is not in `s`. */
  lemma {:induction false} NotContainsWithoutFirstChar(s: string, needle: string)
    requires needle != [] && needle[0] !in s
    ensures !Contains(s, needle)
  {
    if |s| > 0 {
      assert forall c :: c in s[1..] ==> c in s;
      NotContainsWithoutFirstChar(s[1..], needle);
    }
  }

  /** Putting text in front keeps every occurrence. */
  lemma {:induction false} ContainsAfterPrefix(p: string, s: string, needle: string)
    requires Contains(s, needle)
    ensures Contains(p + s, needle)
  {
    if p != [] {
      assert (p + s)[1..] == p[1..] + s;
      ContainsAfterPrefix(p[1..], s, needle);
      assert Contains((p + s)[1..], needle);
    } else {
      assert p + s == s;
    }
  }

  /** The needle occurs in any text built around it. */
  lemma ContainsInside(p: string, needle: string, q: string)
    ensures Contains(p + needle + q, needle)
  {
    assert needle <= needle + q;
    ContainsAfterPrefix(p, needle + q, needle);
    assert p + needle + q == p + (needle + q);
  }

  /** If `inner` occurs in `outer`, every occurrence in `inner` occurs in `outer`. */
  lemma {:induction false} ContainsTransitive(inner: string, needle: string, outer: string)
    requires Contains(inner, needle) && Contains(outer, inner)
    ensures Contains(outer, needle)
    decreases |outer|
  {
    if inner <= outer {
      PrefixContains(inner, needle, outer);
    } else {
      ContainsTransitive(inner, needle, outer[1..]);
    }
  }

  lemma {:induction false} PrefixContains(inner: string, needle: string, outer: string)
    requires Contains(inner, needle) && inner <= outer
    ensures Contains(outer, needle)
    decreases |inner|
  {
    if !(needle <= inner) {
      PrefixContains(inner[1..], needle, outer[1..]);
    }
  }

  /** Python's `sep.join(parts)`. */
  function Join(parts: seq<string>, sep: string): (r: string)
    ensures parts != [] ==> parts[0] <= r
  {
    if parts == [] then ""
    else if |parts| == 1 then parts[0]
    else parts[0] + sep + Join(parts[1..], sep)
  }

  /** Every part is visible in the joined string. */
  lemma {:induction false} JoinContainsPart(parts: seq<string>, sep: string, k: nat)
    requires k < |parts|
    ensures Contains(Join(parts, sep), parts[k])
  {
    if k == 0 {
      assert parts[0] <= Join(parts, sep);
    } else {
      JoinContainsPart(parts[1..], sep, k - 1);
      ContainsAfterPrefix(parts[0] + sep, Join(parts[1..], sep), parts[k]);
    }
  }

  /** Every part is visible in the joined string, all at once. */
  lemma JoinContainsParts(parts: seq<string>, sep: string)
    ensures forall k :: 0 <= k < |parts| ==> Contains(Join(parts, sep), parts[k])
  {
    forall k | 0 <= k < |parts| ensures Contains(Join(parts, sep), parts[k]) {
      JoinContainsPart(parts, sep, k);
    }
  }

  /** Python's `s[:n]` for n >= 0. */
  function Truncate(s: string, n: nat): (r: string)
    ensures r <= s
    ensures |r| == if |s| <= n then |s| else n
  {
    if |s| <= n then s else s[..n]
  }
}
