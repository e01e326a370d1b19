/** The few pieces of .NET behaviour the warehouse code relies on: a nullable
    reference, the argument exceptions it throws, String.IsNullOrEmpty,
    String.IsNullOrWhiteSpace, ordinal String.Contains and String.ToUpperInvariant. */
module DotNet {

  /** A C# reference that may be null: `None` is null. */
  datatype Option<T> = None | Some(value: T)

  /** The argument exceptions thrown by the modelled code. */
  datatype Exception = ArgumentNullException | ArgumentException | ArgumentOutOfRangeException

  /** A value, or the exception thrown instead of returning one. */
  datatype Result<T> = Ok(value: T) | Throws(exception: Exception)

  /** Char.IsWhiteSpace: the Unicode space separators, the line and paragraph
      separators, and the control characters U+0009..U+000D, U+0085. */
  predicate IsWhiteSpace(c: char)
  {
    var n := c as int;
    (9 <= n <= 13) || n == 0x20 || n == 0x85 || n == 0xA0 || n == 0x1680 ||
    (0x2000 <= n <= 0x200A) || n == 0x2028 || n == 0x2029 || n == 0x202F ||
    n == 0x205F || n == 0x3000
  }

  /** True when every character of `s` is white space (so also for ""). */
  predicate AllWhiteSpace(s: string)
  {
    forall i :: 0 <= i < |s| ==> IsWhiteSpace(s[i])
  }

  /** String.IsNullOrWhiteSpace */
  predicate IsNullOrWhiteSpace(s: Option<string>)
  {
    s.None? || AllWhiteSpace(s.value)
  }

  /** String.IsNullOrEmpty */
  predicate IsNullOrEmpty(s: Option<string>)
  {
    s.None? || s.value == ""
  }

  /** Ordinal String.Contains: `m` occurs in `s` as a contiguous piece. */
  predicate Contains(s: string, m: string)
    decreases |s|
  {
    m <= s || (|s| > 0 && Contains(s[1..], m))
  }

  /** A string contains any of its suffixes. */
  lemma {:induction false} ContainsSuffix(p: string, m: string)
    ensures Contains(p + m, m)
    decreases |p|
  {
    if p != [] {
      ContainsSuffix(p[1..], m);
      assert (p + m)[1..] == p[1..] + m;
    }
  }

  /** Invariant upper-casing of one character, for the ASCII letters. */
  function UpperChar(c: char): (u: char)
    ensures 'a' <= c <= 'z' ==> 'A' <= u <= 'Z' && u as int == c as int - 32
    ensures !('a' <= c <= 'z') ==> u == c
  {
    if 'a' <= c <= 'z' then (c as int - 32) as char else c
  }

  /** String.ToUpperInvariant, character by character. */
  function ToUpperInvariant(s: string): (u: string)
    ensures |u| == |s|
    ensures forall i :: 0 <= i < |s| ==> u[i] == UpperChar(s[i])
  {
    seq(|s|, i requires 0 <= i < |s| => UpperChar(s[i]))
  }

  /** Upper-casing twice is upper-casing once. */
  lemma UpperIdempotent(s: string)
    ensures ToUpperInvariant(ToUpperInvariant(s)) == ToUpperInvariant(s)
  {
    var u := ToUpperInvariant(s);
    assert forall i :: 0 <= i < |u| ==> UpperChar(u[i]) == u[i];
  }

  /** Upper-casing neither creates nor removes white space. */
  lemma UpperKeepsWhiteSpace(s: string)
    ensures AllWhiteSpace(ToUpperInvariant(s)) <==> AllWhiteSpace(s)
  {
    var u := ToUpperInvariant(s);
    assert forall i :: 0 <= i < |s| ==> (IsWhiteSpace(u[i]) <==> IsWhiteSpace(s[i]));
  }
}
