/** Character-level vocabulary of the request schemas: decimal digits, string
    length as JavaScript measures it, and fixed-shape patterns. */
module Text {

  /** `\d` and `[0-9]` in a JavaScript regular expression without the `u`
      flag: the ten ASCII digits only. */
  predicate IsDigit(c: char) { '0' <= c <= '9' }

  predicate AllDigits(s: string) { forall i :: 0 <= i < |s| ==> IsDigit(s[i]) }

  /** UTF-16 code units one character occupies: characters outside the
      Basic Multilingual Plane take a surrogate pair. */
  function Utf16Units(c: char): nat { if c as int < 0x1_0000 then 1 else 2 }

  /** JavaScript's `String.length`: the number of UTF-16 code units. */
  function Utf16Length(s: string): (n: nat)
    ensures |s| <= n <= 2 * |s|
  {
    if |s| == 0 then 0 else Utf16Units(s[0]) + Utf16Length(s[1..])
  }

  /** A string schema's `.min(n)`: at least `n` UTF-16 code units. */
  predicate MinLength(s: string, n: nat) { Utf16Length(s) >= n }

  /** Every character lies in the Basic Multilingual Plane (all Hangul and
      all ASCII text does). */
  predicate InBmp(s: string) { forall i :: 0 <= i < |s| ==> s[i] as int < 0x1_0000 }

  /** For text without surrogate pairs, JavaScript's length is the number of
      characters. */
  lemma {:induction false} BmpLength(s: string)
    requires InBmp(s)
    ensures Utf16Length(s) == |s|
  {
    if |s| > 0 {
      assert InBmp(s[1..]) by {
        forall i | 0 <= i < |s[1..]| ensures s[1..][i] as int < 0x1_0000 {
          assert s[1..][i] == s[i + 1];
        }
      }
      BmpLength(s[1..]);
    }
  }

  /** A minimum-length bound is inclusive: on text without surrogate pairs it
      accepts exactly the strings of `n` characters or more. */
  lemma MinLengthInclusive(s: string, n: nat)
    requires InBmp(s)
    ensures MinLength(s, n) <==> |s| >= n
  {
    BmpLength(s);
  }

  /** One position of a fixed-shape pattern: any digit, or one literal. */
  datatype CharClass = Digit | Lit(c: char)

  predicate Fits(c: char, k: CharClass)
  {
    match k
    case Digit => IsDigit(c)
    case Lit(l) => c == l
  }

  /** `s` has exactly the shape `t`, position by position (an anchored
      regular expression with no alternatives). */
  predicate Matches(s: string, t: seq<CharClass>)
  {
    |s| == |t| && forall i :: 0 <= i < |s| ==> Fits(s[i], t[i])
  }

  /** `\d{n}` */
  function Digits(n: nat): (t: seq<CharClass>)
    ensures |t| == n && forall i :: 0 <= i < n ==> t[i] == Digit
  {
    seq(n, _ => Digit)
  }

  const Dash: CharClass := Lit('-')

  /** An optional `-?` taken (`true`) or skipped (`false`). */
  function OptDash(taken: bool): seq<CharClass> { if taken then [Dash] else [] }
}
