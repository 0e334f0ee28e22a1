/**
 * Letter case on strings, as far as the actions compare names: the key names
 * of PressMultipleKeys (`str.lower()`) and the window titles `FindWindow`
 * compares without regard to case. Only the ASCII letters are folded.
 */
module Text {

  function AsciiLowerChar(c: char): char {
    if 'A' <= c <= 'Z' then (c as int + 32) as char else c
  }

  /**
   * `str.lower()` restricted to the ASCII letters. Outside them `str.lower()`
   * also folds other letters, and U+212A KELVIN SIGN even lowers to the ASCII
   * "k"; the key names compared here (shift, ctrl, alt, space) contain no "k",
   * so their lookup is the same either way.
   */
  function AsciiLower(s: string): (r: string)
    ensures |r| == |s| && forall k :: 0 <= k < |s| ==> r[k] == AsciiLowerChar(s[k])
  {
    if s == [] then [] else [AsciiLowerChar(s[0])] + AsciiLower(s[1..])
  }

  /** Two strings that differ at most in the case of their letters. */
  predicate EqualIgnoringCase(a: string, b: string) {
    |a| == |b| && forall k :: 0 <= k < |a| ==> AsciiLowerChar(a[k]) == AsciiLowerChar(b[k])
  }

  /** Lowering twice is lowering once. */
  lemma {:induction false} AsciiLowerIdempotent(s: string)
    ensures AsciiLower(AsciiLower(s)) == AsciiLower(s)
  {
    var once := AsciiLower(s);
    var twice := AsciiLower(once);
    assert |twice| == |once|;
    forall k | 0 <= k < |s| ensures twice[k] == once[k] {
      assert once[k] == AsciiLowerChar(s[k]);
    }
  }

  /** Comparing without regard to case is comparing the lowered strings. */
  lemma EqualIgnoringCaseLowers(a: string, b: string)
    ensures EqualIgnoringCase(a, b) <==> AsciiLower(a) == AsciiLower(b)
  {
    if AsciiLower(a) == AsciiLower(b) {
      assert |a| == |b|;
      forall k | 0 <= k < |a| ensures AsciiLowerChar(a[k]) == AsciiLowerChar(b[k]) {
        assert AsciiLower(a)[k] == AsciiLower(b)[k];
      }
    }
  }

  lemma LowerExample(s: string, lower: string)
    requires |s| == |lower| && forall k :: 0 <= k < |s| ==> AsciiLowerChar(s[k]) == lower[k]
    ensures AsciiLower(s) == lower
  {
  }
}
