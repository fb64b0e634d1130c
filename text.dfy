/** The two string tests of the .NET base library that the consume context
    relies on: String.IsNullOrWhiteSpace and ordinal case-insensitive equality
    (StringComparison.OrdinalIgnoreCase). */
module Text {
  import opened Common

  /** Char.IsWhiteSpace: the Unicode space, line and paragraph separators,
      the control characters U+0009 to U+000D, U+0085 and U+00A0, as listed
      by Unicode 6.3 and later, where U+180E (Mongolian vowel separator) is
      no longer a space separator. Runtimes built on older Unicode data
      also count U+180E. */
  predicate IsWhiteSpace(c: char): (r: bool)
    ensures c as int < 0x80 ==> (r <==> c == ' ' || '\t' <= c <= '\r')
    ensures r ==> !('0' <= c <= '9' || 'a' <= c <= 'z' || 'A' <= c <= 'Z')
  {
    var n := c as int;
    || 0x09 <= n <= 0x0D
    || n == 0x20
    || n == 0x85
    || n == 0xA0
    || n == 0x1680
    || 0x2000 <= n <= 0x200A
    || n == 0x2028
    || n == 0x2029
    || n == 0x202F
    || n == 0x205F
    || n == 0x3000
  }

  /** String.IsNullOrWhiteSpace: null, empty, or made of white space only. */
  predicate IsNullOrWhiteSpace(s: Option<string>): (r: bool)
    ensures s.None? ==> r
    ensures s == Some([]) ==> r
    ensures s.Some? && (forall i :: 0 <= i < |s.value| ==> s.value[i] == ' ' || '\t' <= s.value[i] <= '\r') ==> r
    ensures s.Some? && (exists i :: 0 <= i < |s.value| && !IsWhiteSpace(s.value[i])) ==> !r
  {
    match s
    case None => true
    case Some(str) => forall i :: 0 <= i < |str| ==> IsWhiteSpace(str[i])
  }

  /** The upper-case mapping applied by an ordinal case-insensitive compare,
      for the ASCII letters. */
  function ToUpperOrdinal(c: char): (u: char)
    ensures 'a' <= c <= 'z' ==> 'A' <= u <= 'Z' && u as int == c as int - 32
    ensures !('a' <= c <= 'z') ==> u == c
  {
    if 'a' <= c <= 'z' then (c as int - 32) as char else c
  }

  /** String.Equals(a, b, StringComparison.OrdinalIgnoreCase): same length and
      the same characters once both are upper-cased. */
  function EqualsIgnoreCase(a: string, b: string): (r: bool)
    ensures r <==> |a| == |b| && forall i :: 0 <= i < |a| ==> ToUpperOrdinal(a[i]) == ToUpperOrdinal(b[i])
    ensures a == b ==> r
  {
    if |a| != |b| then false
    else if a == [] then true
    else
      var rest := EqualsIgnoreCase(a[1..], b[1..]);
      assert forall i :: 1 <= i < |a| ==> a[i] == a[1..][i - 1] && b[i] == b[1..][i - 1];
      ToUpperOrdinal(a[0]) == ToUpperOrdinal(b[0]) && rest
  }
}
