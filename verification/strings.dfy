/** The two .NET string tests the bootstrap code relies on:
    `string.IsNullOrEmpty` and `string.IsNullOrWhiteSpace`, together with the
    character class of `char.IsWhiteSpace`. */
module Strings {
  import opened Wrappers

  /** `char.IsWhiteSpace`: the Unicode space, line and paragraph separators
      (categories Zs, Zl, Zp) plus the control characters U+0009..U+000D and
      U+0085. Every one of them lies in the Basic Multilingual Plane, so
      scanning UTF-16 code units or Unicode scalar values gives the same answer. */
  predicate IsWhiteSpace(ch: char)
  {
    || ('\t' <= ch <= '\r')
    || ch == ' '
    || ch == '\U{0085}'
    || ch == '\U{00A0}'
    || ch == '\U{1680}'
    || ('\U{2000}' <= ch <= '\U{200A}')
    || ch == '\U{2028}'
    || ch == '\U{2029}'
    || ch == '\U{202F}'
    || ch == '\U{205F}'
    || ch == '\U{3000}'
  }

  /** `string.IsNullOrEmpty` */
  predicate IsNullOrEmpty(v: Option<string>)
  {
    v.None? || |v.value| == 0
  }

  /** `string.IsNullOrWhiteSpace`, stated as a property of every character */
  predicate IsNullOrWhiteSpace(v: Option<string>)
  {
    v.None? || forall i | 0 <= i < |v.value| :: IsWhiteSpace(v.value[i])
  }

  /** The scan the runtime performs for `string.IsNullOrWhiteSpace`: null is
      blank; otherwise the first character that is not white space decides. */
  method ScanNullOrWhiteSpace(v: Option<string>) returns (blank: bool)
    ensures blank <==> IsNullOrWhiteSpace(v)
    ensures !blank ==> v.Some? && exists i | 0 <= i < |v.value| :: !IsWhiteSpace(v.value[i])
  {
    if v.None? {
      return true;
    }
    var s := v.value;
    var i := 0;
    while i < |s|
      invariant 0 <= i <= |s|
      invariant forall j | 0 <= j < i :: IsWhiteSpace(s[j])
    {
      if !IsWhiteSpace(s[i]) {
        return false;
      }
      i := i + 1;
    }
    return true;
  }

  /** The white-space test is strictly weaker than the emptiness test:
      every null-or-empty value is null-or-white-space, a value that passes
      the white-space test is a non-empty string, and the values on which
      the two tests disagree are exactly the non-empty strings made only of
      white space (of which a single space is one). */
  lemma NullOrEmptyRefinesNullOrWhiteSpace(v: Option<string>)
    ensures IsNullOrEmpty(v) ==> IsNullOrWhiteSpace(v)
    ensures !IsNullOrWhiteSpace(v) ==> v.Some? && v.value != ""
    ensures (IsNullOrWhiteSpace(v) && !IsNullOrEmpty(v))
            <==> (v.Some? && v.value != "" && forall i | 0 <= i < |v.value| :: IsWhiteSpace(v.value[i]))
    ensures IsNullOrWhiteSpace(Some(" ")) && !IsNullOrEmpty(Some(" "))
  {
    assert IsWhiteSpace(" "[0]);
  }
}
