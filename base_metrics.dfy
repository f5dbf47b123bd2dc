/**
 * The base class of the metric computers: a computer's `name` is its class name
 * with every "Metrics" removed, in lower case. (The shared helpers the base module
 * repeats are the ones modelled in MaskUtils.)
 */
module BaseMetrics {

  const MetricsWord: string := "Metrics"

  /** `s.replace(pat, '')`: occurrences are removed left to right, without overlap. */
  function RemoveAll(s: string, pat: string): (r: string)
    requires |pat| > 0
    ensures |r| <= |s|
    decreases |s|
  {
    if |s| < |pat| then s
    else if s[..|pat|] == pat then RemoveAll(s[|pat|..], pat)
    else [s[0]] + RemoveAll(s[1..], pat)
  }

  /** `c.lower()` on ASCII letters. */
  function LowerChar(c: char): char
  {
    if 'A' <= c <= 'Z' then (c as int + 32) as char else c
  }

  function Lower(s: string): (r: string)
    ensures |r| == |s|
    ensures forall i :: 0 <= i < |s| ==> r[i] == LowerChar(s[i])
  {
    seq(|s|, i requires 0 <= i < |s| => LowerChar(s[i]))
  }

  /** `self.__class__.__name__.replace('Metrics', '').lower()`. */
  function Name(className: string): string
  {
    Lower(RemoveAll(className, MetricsWord))
  }

  /** A name holds no upper-case ASCII letter and is never longer than the class name. */
  lemma NameIsLowerCase(className: string)
    ensures |Name(className)| <= |className|
    ensures forall i :: 0 <= i < |Name(className)| ==> !('A' <= Name(className)[i] <= 'Z')
  {
  }

  /** Lower-casing twice changes nothing more. */
  lemma LowerIdempotent(s: string)
    ensures Lower(Lower(s)) == Lower(s)
  {
  }

  /** A string with no window starting with the word's first letter is left unchanged. */
  lemma {:induction false} RemoveAbsent(s: string, pat: string)
    requires |pat| > 0
    requires forall i :: 0 <= i <= |s| - |pat| ==> s[i] != pat[0]
    ensures RemoveAll(s, pat) == s
    decreases |s|
  {
    if |s| >= |pat| {
      assert s[..|pat|][0] == s[0];
      assert forall i :: 0 <= i <= |s[1..]| - |pat| ==> s[1..][i] == s[i + 1];
      RemoveAbsent(s[1..], pat);
      assert s == [s[0]] + s[1..];
    }
  }

  /** A class name `X` + "Metrics", where `X` has no 'M', is named `X` in lower case. */
  lemma {:induction false} RemoveSuffix(x: string, pat: string)
    requires |pat| > 0 && pat[0] !in x
    ensures RemoveAll(x + pat, pat) == x
    decreases |x|
  {
    var s := x + pat;
    if x == [] {
      assert s[..|pat|] == pat;
      assert s[|pat|..] == [];
    } else {
      assert s[..|pat|][0] == x[0];
      assert s[1..] == x[1..] + pat;
      RemoveSuffix(x[1..], pat);
      assert x == [x[0]] + x[1..];
    }
  }

  const SharpnessClass: string := "Sharpness"
  const DocumentShadowClass: string := "DocumentShadowMetric"

  /** `SharpnessMetrics` is named `sharpness`. */
  lemma SharpnessName()
    ensures Name(SharpnessClass + MetricsWord) == "sharpness"
  {
    RemoveSuffix(SharpnessClass, MetricsWord);
  }

  /**
   * The shadow computer's class is `DocumentShadowMetric`, without the final "s":
   * nothing is removed and its name is the whole class name lower-cased.
   */
  lemma DocumentShadowName()
    ensures Name(DocumentShadowClass) == Lower(DocumentShadowClass)
  {
    assert forall i :: 0 <= i <= 13 ==> DocumentShadowClass[i] != 'M' by {
      assert DocumentShadowClass[..14] == "DocumentShadow";
    }
    RemoveAbsent(DocumentShadowClass, MetricsWord);
  }
}
