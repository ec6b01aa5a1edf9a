/** Python's `str.upper()`, as far as it can matter to an enum-member lookup
    whose member names are upper-case ASCII words. */
module PyStr {

  /** Upper-case image of one character: ASCII `a`..`z` map to `A`..`Z`;
      dotless i (U+0131) and long s (U+017F) are the only other lower-case
      letters whose Python capitals are ASCII letters, `I` and `S`.
      Every other character is kept as it is. */
  function UpperChar(c: char): (u: char)
    ensures 'a' <= c <= 'z' ==> u as int == c as int - 32
    ensures 'A' <= u <= 'Z' ==> 'A' <= c <= 'Z' || 'a' <= c <= 'z' || c == '\U{0131}' || c == '\U{017F}'
    ensures !('a' <= u <= 'z')
  {
    if 'a' <= c <= 'z' then (c as int - 32) as char
    else if c == '\U{0131}' then 'I'
    else if c == '\U{017F}' then 'S'
    else c
  }

  /** `s.upper()`: the string with every character upper-cased in place. */
  function Upper(s: string): (r: string)
    ensures |r| == |s|
    ensures forall i :: 0 <= i < |s| ==> r[i] == UpperChar(s[i])
  {
    if s == [] then [] else [UpperChar(s[0])] + Upper(s[1..])
  }

  /** Upper-casing twice is upper-casing once. */
  lemma UpperIdempotent(s: string)
    ensures Upper(Upper(s)) == Upper(s)
  {
  }
}
