/** String building blocks shared by the word list and the timer display:
    runs of blanks, letters joined by spaces, decimal rendering of numbers
    and left padding. Strings are sequences of Unicode scalar values; every
    string built here is plain ASCII apart from the word letters themselves. */
module Text {

  datatype Option<T> = None | Some(value: T)

  /** `Array(n).fill("_").join(" ")`: n underscores separated by single
      spaces, the empty string when n is 0. */
  function Blanks(n: nat): (r: string)
    ensures |r| == if n == 0 then 0 else 2 * n - 1
    ensures forall i :: 0 <= i < |r| ==> r[i] == if i % 2 == 0 then '_' else ' '
  {
    if n == 0 then "" else if n == 1 then "_" else "_ " + Blanks(n - 1)
  }

  /** `s.split("").join(" ")`: the characters of s separated by single
      spaces, with no separator before the first or after the last. */
  function Spaced(s: string): (r: string)
    ensures |r| == if |s| == 0 then 0 else 2 * |s| - 1
    ensures forall i :: 0 <= i < |r| ==> r[i] == if i % 2 == 0 then s[i / 2] else ' '
  {
    if |s| <= 1 then s else [s[0], ' '] + Spaced(s[1..])
  }

  predicate IsDigit(c: char) {
    '0' <= c <= '9'
  }

  function DigitChar(d: nat): (c: char)
    requires d < 10
    ensures IsDigit(c) && c as int - '0' as int == d
  {
    ('0' as int + d) as char
  }

  /** The decimal text of a non-negative integer, as `Number.prototype.toString`
      gives it: digits only, most significant first, no leading zero. */
  function NatToString(n: nat): (r: string)
    ensures 1 <= |r|
    ensures forall i :: 0 <= i < |r| ==> IsDigit(r[i])
    ensures r[0] == '0' ==> n == 0
    ensures n < 10 <==> |r| == 1
    ensures 10 <= n < 100 ==> |r| == 2
  {
    if n < 10 then [DigitChar(n)] else NatToString(n / 10) + [DigitChar(n % 10)]
  }

  /** Reads a non-empty string of decimal digits, most significant first;
      None for the empty string or any non-digit. */
  function ParseNat(s: string): (r: Option<nat>)
  {
    if |s| == 0 || !IsDigit(s[|s| - 1]) then None
    else
      var last := s[|s| - 1] as int - '0' as int;
      if |s| == 1 then Some(last)
      else match ParseNat(s[..|s| - 1])
        case None => None
        case Some(high) => Some(10 * high + last)
  }

  /** ParseNat accepts exactly the non-empty strings of digits. */
  lemma {:induction false} ParseNatAcceptsDigits(s: string)
    ensures ParseNat(s).Some? <==> (|s| > 0 && forall i :: 0 <= i < |s| ==> IsDigit(s[i]))
  {
    if |s| > 1 && IsDigit(s[|s| - 1]) {
      var front := s[..|s| - 1];
      ParseNatAcceptsDigits(front);
      assert forall i :: 0 <= i < |front| ==> front[i] == s[i];
    }
  }

  /** Reading back the decimal text of n gives n. */
  lemma {:induction false} NatToStringRoundTrip(n: nat)
    ensures ParseNat(NatToString(n)) == Some(n)
  {
    if n >= 10 {
      var high := NatToString(n / 10);
      var s := high + [DigitChar(n % 10)];
      NatToStringRoundTrip(n / 10);
      assert s[..|s| - 1] == high;
    }
  }

  /** `s.padStart(width, c)` with a one-character pad: s itself when it is at
      least width long, otherwise s preceded by enough copies of c to make it
      exactly width long. */
  function PadStart(s: string, width: nat, c: char): (r: string)
    ensures |r| == if |s| >= width then |s| else width
    ensures r[|r| - |s|..] == s
    ensures forall i :: 0 <= i < |r| - |s| ==> r[i] == c
  {
    if |s| >= width then s else seq(width - |s|, _ => c) + s
  }
}
