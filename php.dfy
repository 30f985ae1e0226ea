/**
 * The small part of PHP's runtime semantics the client relies on: the
 * exception kinds it raises, `empty()` on strings, `trim()` with its default
 * character list, and ASCII `strtoupper()`.
 */
module Php {

  datatype Option<+T> = None | Some(value: T)

  /** The exceptions the modelled code raises, with their messages. */
  datatype Error =
    | CSBException(message: string)
    | InvalidArgument(message: string)
    | ValueError(message: string)
    | ArgumentCountError(message: string)

  /** A value or the exception that was raised instead of returning it. */
  datatype Result<+T> = Ok(value: T) | Err(error: Error)

  /** Normal completion of a `void` method, or the exception it raised. */
  datatype Outcome = Pass | Fail(error: Error)

  /** `empty($s)` for a string (a PHP `null` is modelled as the empty string). */
  predicate PhpEmpty(s: string)
    ensures PhpEmpty(s) ==> |s| <= 1
  {
    s == "" || s == "0"
  }

  /** The characters `trim()` strips by default: space, tab, LF, CR, NUL and vertical tab. */
  predicate IsTrimChar(c: char) {
    c == ' ' || c == '\t' || c == '\n' || c == '\r' || c == '\0' || c == '\U{B}'
  }

  /** Number of trim characters at the start of `s`. */
  function LeadingTrim(s: string): (n: nat)
    ensures n <= |s|
    ensures forall i :: 0 <= i < n ==> IsTrimChar(s[i])
    ensures n < |s| ==> !IsTrimChar(s[n])
  {
    if |s| > 0 && IsTrimChar(s[0]) then
      var n := 1 + LeadingTrim(s[1..]);
      assert forall i :: 1 <= i < n ==> s[i] == s[1..][i - 1];
      n
    else 0
  }

  /** Number of trim characters at the end of `s`. */
  function TrailingTrim(s: string): (n: nat)
    ensures n <= |s|
    ensures forall i :: |s| - n <= i < |s| ==> IsTrimChar(s[i])
    ensures n < |s| ==> !IsTrimChar(s[|s| - 1 - n])
  {
    if |s| > 0 && IsTrimChar(s[|s| - 1]) then
      var n := 1 + TrailingTrim(s[..|s| - 1]);
      assert forall i :: |s| - n <= i < |s| - 1 ==> s[i] == s[..|s| - 1][i];
      n
    else 0
  }

  /**
   * `trim($s)`: the infix of `s` that neither starts nor ends with a trim
   * character and outside of which `s` holds only trim characters.
   */
  function Trim(s: string): (r: string)
    ensures LeadingTrim(s) + |r| <= |s|
    ensures r == [] || (!IsTrimChar(r[0]) && !IsTrimChar(r[|r| - 1]))
    ensures r == s[LeadingTrim(s)..LeadingTrim(s) + |r|]
    ensures forall i :: 0 <= i < LeadingTrim(s) ==> IsTrimChar(s[i])
    ensures forall i :: LeadingTrim(s) + |r| <= i < |s| ==> IsTrimChar(s[i])
  {
    var a := LeadingTrim(s);
    var t := s[a..];
    var r := t[..|t| - TrailingTrim(t)];
    assert forall i :: LeadingTrim(s) + |r| <= i < |s| ==> s[i] == t[i - a];
    r
  }

  /** Trimming twice is trimming once. */
  lemma TrimIdempotent(s: string)
    ensures Trim(Trim(s)) == Trim(s)
  {
    var r := Trim(s);
    if r != [] {
      assert LeadingTrim(r) == 0;
      assert TrailingTrim(r) == 0;
    }
  }

  /** ASCII `strtoupper()`. */
  function ToUpper(s: string): (r: string)
    ensures |r| == |s|
    ensures forall i :: 0 <= i < |s| ==>
      r[i] == if 'a' <= s[i] <= 'z' then (s[i] as int - 32) as char else s[i]
  {
    if s == [] then []
    else
      var c := s[0];
      [if 'a' <= c <= 'z' then (c as int - 32) as char else c] + ToUpper(s[1..])
  }

  /** `substr($s, 0, $n)`: at most the first `n` characters. */
  function Prefix(s: string, n: nat): (r: string)
    ensures |r| == if |s| < n then |s| else n
    ensures r <= s
  {
    if |s| < n then s else s[..n]
  }
}
