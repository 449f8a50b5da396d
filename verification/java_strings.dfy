/** A Java reference that may be null. */
module Optional {

  datatype Option<+T> = None | Some(value: T)
}

/**
 The pieces of `java.lang.String`, `java.lang.Character` and commons-lang3
 `StringUtils` that the mojo relies on, restricted to what its decisions can
 observe.
 */
module JavaStrings {
  import opened Optional

  /** `StringUtils.isNotEmpty`: the reference is non-null and holds at least one character. */
  predicate IsNotEmpty(s: Option<string>)
  {
    s.Some? && |s.value| > 0
  }

  /** `String.startsWith`. */
  predicate StartsWith(s: string, prefix: string)
  {
    prefix <= s
  }

  predicate IsAscii(s: string)
  {
    forall i :: 0 <= i < |s| ==> s[i] < '\U{80}'
  }

  /** The lower case of one character under `String.toLowerCase`, on the ASCII letters. */
  function AsciiLower(c: char): (r: char)
    ensures 'A' <= c <= 'Z' ==> 'a' <= r <= 'z'
    ensures !('A' <= c <= 'Z') ==> r == c
    ensures c < '\U{80}' ==> r < '\U{80}'
  {
    if 'A' <= c <= 'Z' then (c as int + 32) as char else c
  }

  /** `String.toLowerCase`, character by character on the ASCII letters. */
  function ToLowerCase(s: string): (r: string)
    ensures |r| == |s|
    ensures forall i :: 0 <= i < |s| ==> r[i] == AsciiLower(s[i])
  {
    seq(|s|, i requires 0 <= i < |s| => AsciiLower(s[i]))
  }

  /**
   `Character.toUpperCase` on the characters whose upper case is an ASCII
   letter: the lower-case ASCII letters, the dotless i and the long s.
   */
  function UpperCase(c: char): char
  {
    if 'a' <= c <= 'z' then (c as int - 32) as char
    else if c == '\U{0131}' then 'I'
    else if c == '\U{017F}' then 'S'
    else c
  }

  /**
   `Character.toLowerCase` on the characters whose lower case is an ASCII
   letter: the upper-case ASCII letters, the capital I with dot above and the
   Kelvin sign.
   */
  function LowerCase(c: char): char
  {
    if 'A' <= c <= 'Z' then (c as int + 32) as char
    else if c == '\U{0130}' then 'i'
    else if c == '\U{212A}' then 'k'
    else c
  }

  /** The per-character test of `String.equalsIgnoreCase` (via `regionMatches`). */
  predicate CharEqualsIgnoreCase(a: char, b: char)
  {
    || a == b
    || UpperCase(a) == UpperCase(b)
    || LowerCase(UpperCase(a)) == LowerCase(UpperCase(b))
  }

  /** `String.equalsIgnoreCase` for a non-null argument. */
  function EqualsIgnoreCase(a: string, b: string): (r: bool)
    ensures r <==> |a| == |b| && forall i :: 0 <= i < |a| ==> CharEqualsIgnoreCase(a[i], b[i])
  {
    if |a| != |b| then false
    else if |a| == 0 then true
    else
      assert forall i :: 1 <= i < |a| ==> a[1..][i - 1] == a[i] && b[1..][i - 1] == b[i];
      CharEqualsIgnoreCase(a[0], b[0]) && EqualsIgnoreCase(a[1..], b[1..])
  }

  /** On ASCII characters the Java test is "same lower case". */
  lemma CharEqualsIgnoreCaseAscii(a: char, b: char)
    requires a < '\U{80}' && b < '\U{80}'
    ensures CharEqualsIgnoreCase(a, b) <==> AsciiLower(a) == AsciiLower(b)
  {
  }

  /**
   Two ASCII strings are equal ignoring case exactly when their lower-case
   forms are equal.
   */
  lemma EqualsIgnoreCaseAscii(a: string, b: string)
    requires IsAscii(a) && IsAscii(b)
    ensures EqualsIgnoreCase(a, b) <==> ToLowerCase(a) == ToLowerCase(b)
  {
  }
}
