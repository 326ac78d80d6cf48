/** The texts a word slot of the list can show while its word is not yet
    revealed. Every one starts with the word's first letter; they differ in
    how many blanks follow and whether further letters are shown. */
module Masks {
  import opened Text

  /** The default mask: first letter, a space, then four blanks whatever the
      word's length (the fixed-width hint). */
  function DefaultMask(w: string): (r: string)
    requires |w| > 0
    ensures |r| == 9 && r[0] == w[0]
    ensures forall i :: 1 <= i < |r| ==> r[i] == if i % 2 == 0 then '_' else ' '
  {
    [w[0]] + " " + Blanks(4)
  }

  /** The full-length hint: first letter, a space, then one blank per
      remaining letter. A one-letter word gives its letter and a trailing
      space, since zero blanks join to the empty string. */
  function FullMask(w: string): (r: string)
    requires |w| > 0
    ensures |r| == if |w| == 1 then 2 else 2 * |w| - 1
    ensures r[0] == w[0]
    ensures forall i :: 1 <= i < |r| ==> r[i] == if i % 2 == 0 then '_' else ' '
  {
    [w[0]] + " " + Blanks(|w| - 1)
  }

  /** The letter-by-letter hint with k letters shown: the first k letters
      space separated, then a space and the blanks for the rest, the
      separating space left out when no blanks remain. */
  function LetterProgress(w: string, k: nat): (r: string)
    requires 1 <= k <= |w|
    ensures |r| == 2 * |w| - 1
    ensures forall i :: 0 <= i < |r| ==>
      r[i] == if i % 2 == 1 then ' ' else if i / 2 < k then w[i / 2] else '_'
  {
    var revealed := Spaced(w[..k]);
    var blanks := Blanks(|w| - k);
    var r := revealed + (if blanks != "" then " " + blanks else "");
    assert forall i :: 2 * k <= i < |r| ==> r[i] == blanks[i - 2 * k];
    r
  }

  /** A slot holding one of the three masked forms of w: the default mask,
      the full-length hint, or the letter hint with at least two letters. */
  ghost predicate Masked(w: string, s: string)
    requires |w| > 0
  {
    || s == DefaultMask(w)
    || s == FullMask(w)
    || exists k :: 1 < k <= |w| && s == LetterProgress(w, k)
  }

  /** The fixed four-blank mask and the full-length hint show the same text
      exactly for five-letter words. */
  lemma DefaultIsFullIffFiveLetters(w: string)
    requires |w| > 0
    ensures DefaultMask(w) == FullMask(w) <==> |w| == 5
  {
    if |w| == 5 {
      assert Blanks(|w| - 1) == Blanks(4);
    }
  }

  /** Turning the full-length hint on shows what the letter hint shows for
      its first letter, except that a one-letter word keeps a trailing space. */
  lemma FullMaskIsFirstLetterProgress(w: string)
    requires |w| > 0
    ensures |w| > 1 ==> FullMask(w) == LetterProgress(w, 1)
    ensures |w| == 1 ==> FullMask(w) == LetterProgress(w, 1) + " "
  {
    var f, p := FullMask(w), LetterProgress(w, 1);
    if |w| > 1 {
      assert |f| == |p|;
      forall i | 0 <= i < |f| ensures f[i] == p[i] {
      }
    } else {
      assert p == [w[0]];
    }
  }

  /** Once the letter hint has reached the word's length, the slot spells the
      whole word with single spaces and no blank is left. */
  lemma LetterProgressComplete(w: string)
    requires |w| > 0
    ensures LetterProgress(w, |w|) == Spaced(w)
  {
    assert w[..|w|] == w;
    assert Blanks(|w| - |w|) == "";
  }
}
