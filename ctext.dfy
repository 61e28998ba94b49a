/** C-level text: NUL-free strings, the "%*c" conversion of printf and the
    plain suffix test used on file paths. */
module CText {

  /** A C string as `char *` holds it: every character before the terminating NUL. */
  type CString = s: string | '\0' !in s

  /** C's `unsigned short`, the type of the indentation width. */
  newtype u16 = x: int | 0 <= x < 0x1_0000

  datatype Option<+T> = None | Some(value: T)

  /** `s` ends with `suffix` (the helper the compiler calls `string_ends_with`). */
  predicate EndsWith(s: string, suffix: string)
  {
    |suffix| <= |s| && s[|s| - |suffix|..] == suffix
  }

  /** `s` starts with `prefix`. */
  predicate StartsWith(s: string, prefix: string)
  {
    |prefix| <= |s| && s[..|prefix|] == prefix
  }

  /** `n` blank characters. */
  function Spaces(n: nat): (r: string)
    ensures |r| == n
    ensures forall k :: 0 <= k < n ==> r[k] == ' '
  {
    if n == 0 then "" else Spaces(n - 1) + " "
  }

  /** What `printf("%*c", width, c)` writes for a non-negative width: the
      character right-justified in a field of `width` columns, so
      `width - 1` blanks and then `c`; a field narrower than one column
      still holds the character. */
  function PaddedChar(width: nat, c: char): (r: string)
    ensures |r| == if width == 0 then 1 else width
    ensures r[|r| - 1] == c
    ensures forall k :: 0 <= k < |r| - 1 ==> r[k] == ' '
  {
    if width <= 1 then [c] else [' '] + PaddedChar(width - 1, c)
  }

  /** Number of occurrences of `c` in `s`. */
  function Count(s: string, c: char): (n: nat)
    ensures n <= |s|
    ensures n == 0 <==> c !in s
  {
    if s == [] then 0
    else (if s[0] == c then 1 else 0) + Count(s[1..], c)
  }

  lemma {:induction false} CountAppend(a: string, b: string, c: char)
    ensures Count(a + b, c) == Count(a, c) + Count(b, c)
  {
    if a == [] {
      assert a + b == b;
    } else {
      assert (a + b)[1..] == a[1..] + b;
      CountAppend(a[1..], b, c);
    }
  }

  /** Length of the run of blanks at the front of `s`. */
  function LeadingSpaces(s: string): (n: nat)
    ensures n <= |s|
    ensures forall k :: 0 <= k < n ==> s[k] == ' '
    ensures n < |s| ==> s[n] != ' '
  {
    if s == [] || s[0] != ' ' then 0 else 1 + LeadingSpaces(s[1..])
  }

  /** A run of blanks followed by text that does not start with one is
      measured exactly by LeadingSpaces. */
  lemma {:induction false} LeadingSpacesOfPadded(n: nat, t: string)
    requires t == [] || t[0] != ' '
    ensures LeadingSpaces(Spaces(n) + t) == n
  {
    if n > 0 {
      assert Spaces(n) + t == [' '] + (Spaces(n - 1) + t);
      assert (Spaces(n) + t)[1..] == Spaces(n - 1) + t;
      LeadingSpacesOfPadded(n - 1, t);
    } else {
      assert Spaces(n) + t == t;
    }
  }

  /** The field written by "%*c" with a blank is nothing but blanks. */
  lemma PaddedBlankIsSpaces(width: nat)
    ensures PaddedChar(width, ' ') == Spaces(if width == 0 then 1 else width)
  {
  }
}
