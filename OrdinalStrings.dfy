/**
 * String comparisons used by the model.
 *
 * `StringComparison.Ordinal` is plain sequence equality on `string`.
 * `StringComparison.OrdinalIgnoreCase` compares two strings code unit by code unit after
 * upper-casing each one; here the upper-casing is an ASCII-only stand-in. The same
 * comparison is assumed for `StringComparers.ConfigurationDimensionNames`, whose definition
 * is not part of this model: dimension names are unioned case-insensitively.
 */
module OrdinalStrings {

  /** Upper-cases an ASCII letter and leaves every other character alone. */
  function FoldChar(c: char): char
  {
    if 'a' <= c <= 'z' then (c as int - 32) as char else c
  }

  /** The string with every character folded; the key under which ignore-case comparison works. */
  function Fold(s: string): (r: string)
    ensures |r| == |s|
  {
    seq(|s|, i requires 0 <= i < |s| => FoldChar(s[i]))
  }

  /** `string.Equals(a, b, StringComparison.OrdinalIgnoreCase)`. */
  predicate EqualsIgnoreCase(a: string, b: string)
  {
    Fold(a) == Fold(b)
  }

  /** `s.StartsWith(prefix, StringComparison.OrdinalIgnoreCase)` for non-null `s` and `prefix`. */
  predicate StartsWithIgnoreCase(s: string, prefix: string)
  {
    |prefix| <= |s| && EqualsIgnoreCase(s[..|prefix|], prefix)
  }
}
