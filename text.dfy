/**
 * The string operations the components use: JavaScript truthiness of a
 * string, `toLowerCase`, `includes` and `endsWith`.
 */
module Text {

  /** A JavaScript string is truthy exactly when it is not "". */
  predicate Truthy(s: string)
  {
    |s| > 0
  }

  /** `toLowerCase` on one character, ASCII letters only. */
  function LowerChar(c: char): char
  {
    if 'A' <= c <= 'Z' then (c as int + 32) as char else c
  }

  /** `toLowerCase` on a string, character by character. */
  function Lower(s: string): (r: string)
    ensures |r| == |s|
  {
    seq(|s|, i requires 0 <= i < |s| => LowerChar(s[i]))
  }

  /** `hay.includes(needle)`: needle occurs as a contiguous block of hay. */
  predicate Includes(hay: string, needle: string)
  {
    exists i :: 0 <= i <= |hay| - |needle| && needle <= hay[i..]
  }

  /** `s.endsWith(suffix)`. */
  predicate EndsWith(s: string, suffix: string)
  {
    |suffix| <= |s| && s[|s| - |suffix|..] == suffix
  }

  lemma LowerConcat(a: string, b: string)
    ensures Lower(a + b) == Lower(a) + Lower(b)
  {
    var l, r := Lower(a + b), Lower(a) + Lower(b);
    forall i | 0 <= i < |l|
      ensures l[i] == r[i]
    {
      if i < |a| {
        assert (a + b)[i] == a[i];
      } else {
        assert (a + b)[i] == b[i - |a|];
      }
    }
  }

  lemma LowerIdempotent(s: string)
    ensures Lower(Lower(s)) == Lower(s)
  {
  }

  /** The empty string is included in every string. */
  lemma IncludesEmpty(hay: string)
    ensures Includes(hay, "")
  {
    assert "" <= hay[0..];
  }

  /** Every string includes itself. */
  lemma IncludesSelf(s: string)
    ensures Includes(s, s)
  {
    assert s <= s[0..];
  }

  /** A needle longer than the hay is never included in it. */
  lemma IncludesNotLonger(hay: string, needle: string)
    requires Includes(hay, needle)
    ensures |needle| <= |hay|
  {
  }

  /** What a string includes, it still includes with text added on either side. */
  lemma IncludesInContext(before: string, hay: string, after: string, needle: string)
    requires Includes(hay, needle)
    ensures Includes(before + hay + after, needle)
  {
    var i :| 0 <= i <= |hay| - |needle| && needle <= hay[i..];
    var whole := before + hay + after;
    var k := |before| + i;
    assert whole[k..k + |needle|] == hay[i..i + |needle|];
    assert needle <= whole[k..];
  }
}
