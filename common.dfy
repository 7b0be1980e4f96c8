/** Shared vocabulary of the model: optional values, results of operations
    that the source lets throw, calendar days, and the JavaScript notion of a
    blank string (`s.trim() === ''`). */
module Common {

  datatype Option<+T> = None | Some(value: T)

  /** The outcome of a source operation that either returns a value or throws. */
  datatype Result<+T> = Ok(value: T) | Err(error: string)

  /** A calendar date as a whole-day ordinal (days since 1970-01-01).
      Adding days, comparing dates and half-open containment become integer
      arithmetic; the ISO `YYYY-MM-DD` text form is not modelled. */
  type Day = int

  /** The characters JavaScript's `trim` removes: the ECMAScript WhiteSpace
      and LineTerminator code points (tab, line feed, vertical tab, form
      feed, carriage return, space, no-break space, the Ogham space mark,
      the spaces U+2000 to U+200A, the line and paragraph separators, the
      narrow no-break space, the medium mathematical space, the ideographic
      space and the byte order mark). */
  predicate IsJsWhitespace(c: char)
  {
    c == ' ' || c == '\t' || c == '\n' || c == '\r' || c == '\U{B}' || c == '\U{C}' ||
    c == '\U{A0}' || c == '\U{1680}' || ('\U{2000}' <= c <= '\U{200A}') ||
    c == '\U{2028}' || c == '\U{2029}' || c == '\U{202F}' || c == '\U{205F}' ||
    c == '\U{3000}' || c == '\U{FEFF}'
  }

  /** `!s || s.trim() === ''`: the empty string or only whitespace. */
  predicate IsBlank(s: string)
  {
    forall i :: 0 <= i < |s| ==> IsJsWhitespace(s[i])
  }

  function Max(a: int, b: int): (r: int)
    ensures r >= a && r >= b && (r == a || r == b)
  {
    if a > b then a else b
  }

  /** `Math.abs`. */
  function Abs(x: int): (r: nat)
    ensures r == x || r == -x
  {
    if x < 0 then -x else x
  }

  /** True iff no two positions of `s` hold the same element. */
  predicate Distinct<T(==)>(s: seq<T>)
  {
    forall i, j :: 0 <= i < j < |s| ==> s[i] != s[j]
  }
}
