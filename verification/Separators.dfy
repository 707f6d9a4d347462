/** Texts made of two parts and a separator: scenario keys and Vertex path segments. */
module Separators {

  /** A text splits at its last separator in one way only. */
  lemma LastSeparatorUnique(sep: char, a: string, b: string, a': string, b': string)
    requires a + [sep] + b == a' + [sep] + b'
    requires sep !in b && sep !in b'
    ensures a == a' && b == b'
  {
    var s := a + [sep] + b;
    assert s[|a|] == sep && s[|a'|] == sep;
    assert forall k :: |a| < k < |s| ==> s[k] == b[k - |a| - 1];
    assert forall k :: |a'| < k < |s| ==> s[k] == b'[k - |a'| - 1];
    assert |a| == |a'|;
    assert a == s[..|a|] && b == s[|a| + 1..];
    assert a' == s[..|a'|] && b' == s[|a'| + 1..];
  }

  /** Where the last separator is. */
  lemma {:induction false} LastSeparator(sep: char, s: string) returns (a: string, b: string)
    requires sep in s
    ensures s == a + [sep] + b && sep !in b
  {
    var n := |s| - 1;
    if s[n] == sep {
      a, b := s[..n], "";
    } else {
      assert s == s[..n] + [s[n]];
      a, b := LastSeparator(sep, s[..n]);
      b := b + [s[n]];
    }
  }
}
