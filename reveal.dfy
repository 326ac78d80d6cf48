/** The reveal engine: which set is on screen, how far its words have been
    revealed, the hint state of the next word, and the texts the page shows
    for them (one per list item, the Next button's label and the heading). */
module RevealEngine {
  import opened Text
  import opened Masks

  const NextLabel: string := "Next"
  const NextSetLabel: string := "Next Set"

  /** The loaded game data as the engine can use it: at least one set (the
      first one is rendered straight away) and no empty word (every masked
      slot shows its word's first letter). A set itself may be empty. */
  predicate WellFormed(sets: seq<seq<string>>) {
    && |sets| > 0
    && forall i, j :: 0 <= i < |sets| && 0 <= j < |sets[i]| ==> |sets[i][j]| > 0
  }

  /** The heading polled once a second: "Connect " and the number of words
      in the current set, in decimal without a leading zero. */
  function ConnectText(n: nat): (r: string)
    ensures |r| > 8 && r[..8] == "Connect "
    ensures ParseNat(r[8..]) == Some(n)
    ensures r[8] == '0' ==> |r| == 9
  {
    NatToStringRoundTrip(n);
    var r := "Connect " + NatToString(n);
    assert r[8..] == NatToString(n);
    r
  }

  /** The label the Next button should carry: "Next Set" once a set of two
      or more words has been revealed to its end, "Next" otherwise. */
  function LabelFor(words: seq<string>, revealIndex: nat): string {
    if 1 < revealIndex == |words| then NextSetLabel else NextLabel
  }

  /** The engine's invariant, over the values of its state: the set index in
      range, one item per word, the pointer between 1 and the end of the set,
      the letter count within the word being hinted, every word before the
      pointer shown in full, every word from the pointer on shown in one of
      its masked forms, and the button label matching the pointer. */
  ghost predicate Consistent(sets: seq<seq<string>>, setIndex: nat, revealIndex: nat,
                             count: nat, items: seq<string>, buttonLabel: string)
  {
    && WellFormed(sets)
    && setIndex < |sets|
    && |items| == |sets[setIndex]|
    && 1 <= revealIndex
    && (revealIndex <= |sets[setIndex]| || revealIndex == 1)
    && 1 <= count
    && (revealIndex < |sets[setIndex]| ==> count <= |sets[setIndex][revealIndex]|)
    && (forall i :: 0 <= i < revealIndex && i < |items| ==> items[i] == sets[setIndex][i])
    && (forall i :: revealIndex <= i < |items| ==> Masked(sets[setIndex][i], items[i]))
    && buttonLabel == LabelFor(sets[setIndex], revealIndex)
  }

  /** The list `renderSet` builds for a set: one item per word, the first
      word in full and every other word as its first letter and four blanks. */
  ghost predicate RenderedList(words: seq<string>, items: seq<string>)
    requires forall j :: 0 <= j < |words| ==> |words[j]| > 0
  {
    && |items| == |words|
    && forall i :: 0 <= i < |items| ==>
         items[i] == if i == 0 then words[0] else DefaultMask(words[i])
  }

  /** The list a fresh render builds is consistent with the pointer at 1. */
  lemma RenderedConsistent(sets: seq<seq<string>>, setIndex: nat, items: seq<string>)
    requires WellFormed(sets) && setIndex < |sets|
    requires RenderedList(sets[setIndex], items)
    ensures Consistent(sets, setIndex, 1, 1, items, NextLabel)
  {
    var words := sets[setIndex];
    forall i | 1 <= i < |items| ensures Masked(words[i], items[i]) {
    }
  }

  /** Revealing the word at the pointer and moving past it keeps the
      invariant, with the label switching to "Next Set" at the set's end. */
  lemma RevealConsistent(sets: seq<seq<string>>, setIndex: nat, revealIndex: nat,
                         count: nat, items: seq<string>, buttonLabel: string)
    requires Consistent(sets, setIndex, revealIndex, count, items, buttonLabel)
    requires revealIndex < |sets[setIndex]|
    ensures buttonLabel == NextLabel
    ensures Consistent(sets, setIndex, revealIndex + 1, 1,
                       items[revealIndex := sets[setIndex][revealIndex]],
                       if revealIndex + 1 == |sets[setIndex]| then NextSetLabel else buttonLabel)
  {
    var after := items[revealIndex := sets[setIndex][revealIndex]];
    assert forall i :: revealIndex < i < |after| ==> after[i] == items[i];
  }

  /** Moving the pointer back and re-masking the slot it lands on keeps the
      invariant, with the label back at "Next". */
  lemma GoBackConsistent(sets: seq<seq<string>>, setIndex: nat, revealIndex: nat,
                         count: nat, items: seq<string>, buttonLabel: string)
    requires Consistent(sets, setIndex, revealIndex, count, items, buttonLabel)
    requires revealIndex > 1
    ensures Consistent(sets, setIndex, revealIndex - 1, 1,
                       items[revealIndex - 1 := DefaultMask(sets[setIndex][revealIndex - 1])],
                       NextLabel)
  {
    var after := items[revealIndex - 1 := DefaultMask(sets[setIndex][revealIndex - 1])];
    assert forall i :: revealIndex <= i < |after| ==> after[i] == items[i];
  }

  /** Showing another masked form of the word at the pointer, with a letter
      count still within that word, keeps the invariant. */
  lemma HintConsistent(sets: seq<seq<string>>, setIndex: nat, revealIndex: nat,
                       count: nat, items: seq<string>, buttonLabel: string,
                       newCount: nat, text: string)
    requires Consistent(sets, setIndex, revealIndex, count, items, buttonLabel)
    requires revealIndex < |sets[setIndex]|
    requires 1 <= newCount <= |sets[setIndex][revealIndex]|
    requires Masked(sets[setIndex][revealIndex], text)
    ensures Consistent(sets, setIndex, revealIndex, newCount, items[revealIndex := text], buttonLabel)
  {
    var after := items[revealIndex := text];
    assert forall i :: revealIndex < i < |after| ==> after[i] == items[i];
  }

  /** Once every word of a set of two or more has been revealed, the list
      shows exactly the set's words and the button reads "Next Set". */
  lemma AllRevealed(sets: seq<seq<string>>, setIndex: nat, revealIndex: nat,
                    count: nat, items: seq<string>, buttonLabel: string)
    requires Consistent(sets, setIndex, revealIndex, count, items, buttonLabel)
    requires 1 < revealIndex == |sets[setIndex]|
    ensures items == sets[setIndex] && buttonLabel == NextSetLabel
  {
  }

  class Game {
    /** The sets of words, as loaded once from the game data. */
    const sets: seq<seq<string>>
    var currentSetIndex: nat
    /** The index of the next word to reveal. */
    var currentRevealIndex: nat
    /** How many letters of that word the letter hint shows. */
    var letterRevealCount: nat
    /** Whether the full-length hint is on for that word. */
    var showLettersActive: bool
    /** The text of each item of the word list, one per word. */
    var items: seq<string>
    /** The label of the Next button. */
    var nextLabel: string
    /** The heading above the list. */
    var topText: string

    function Words(): seq<string>
      reads this
      requires currentSetIndex < |sets|
    {
      sets[currentSetIndex]
    }

    ghost predicate Valid()
      reads this
    {
      Consistent(sets, currentSetIndex, currentRevealIndex, letterRevealCount, items, nextLabel)
    }

    /** The state `renderSet` leaves: pointers and hint reset, the button
        reading "Next", the first word in full and every other word as its
        first letter and four blanks. */
    ghost predicate Rendered()
      reads this
      requires WellFormed(sets) && currentSetIndex < |sets|
    {
      && currentRevealIndex == 1
      && letterRevealCount == 1
      && !showLettersActive
      && nextLabel == NextLabel
      && RenderedList(Words(), items)
    }

    /** The page once the game data has loaded: the first set rendered. The
        heading still shows the page's own text until the first poll. */
    constructor (loaded: seq<seq<string>>, pageTopText: string)
      requires WellFormed(loaded)
      ensures sets == loaded && currentSetIndex == 0
      ensures Valid() && Rendered()
      ensures topText == pageTopText
    {
      sets := loaded;
      currentSetIndex := 0;
      currentRevealIndex := 1;
      letterRevealCount := 1;
      showLettersActive := false;
      items := [];
      nextLabel := NextLabel;
      topText := pageTopText;
      new;
      RenderSet();
    }

    /** `renderSet`: rebuild the list for the current set. */
    method RenderSet()
      requires WellFormed(sets) && currentSetIndex < |sets|
      modifies this
      ensures Valid() && Rendered()
      ensures currentSetIndex == old(currentSetIndex) && topText == old(topText)
    {
      var words := sets[currentSetIndex];
      var list := [];
      currentRevealIndex := 1;
      letterRevealCount := 1;
      showLettersActive := false;
      nextLabel := NextLabel;
      var i := 0;
      while i < |words|
        invariant i <= |words|
        invariant |list| == i
        invariant forall j :: 0 <= j < i ==>
          list[j] == if j == 0 then words[0] else DefaultMask(words[j])
      {
        var text := if i == 0 then words[i] else DefaultMask(words[i]);
        list := list + [text];
        i := i + 1;
      }
      items := list;
      RenderedConsistent(sets, currentSetIndex, items);
    }

    /** `revealNext`: show the next word in full and move the pointer past
        it, or, once the set is exhausted, render the following set,
        wrapping from the last set to the first. */
    method RevealNext()
      requires Valid()
      modifies this
      ensures Valid()
      ensures topText == old(topText)
      ensures old(currentRevealIndex) < |old(Words())| ==>
        && currentSetIndex == old(currentSetIndex)
        && currentRevealIndex == old(currentRevealIndex) + 1
        && items == old(items)[old(currentRevealIndex) := old(Words())[old(currentRevealIndex)]]
        && letterRevealCount == 1 && !showLettersActive
        && (nextLabel == NextSetLabel <==> currentRevealIndex == |Words()|)
      ensures old(currentRevealIndex) >= |old(Words())| ==>
        && currentSetIndex == (old(currentSetIndex) + 1) % |sets|
        && (old(currentSetIndex) == |sets| - 1 ==> currentSetIndex == 0)
        && Rendered()
    {
      if currentRevealIndex < |sets[currentSetIndex]| {
        RevealWord();
      } else {
        currentSetIndex := (currentSetIndex + 1) % |sets|;
        RenderSet();
      }
    }

    /** The first branch of `revealNext`: the word at the pointer replaces
        its mask, the pointer moves past it and the hints reset. */
    method RevealWord()
      requires Valid() && currentRevealIndex < |Words()|
      modifies this
      ensures Valid()
      ensures currentSetIndex == old(currentSetIndex) && topText == old(topText)
      ensures currentRevealIndex == old(currentRevealIndex) + 1
      ensures items == old(items)[old(currentRevealIndex) := Words()[old(currentRevealIndex)]]
      ensures letterRevealCount == 1 && !showLettersActive
      ensures nextLabel == NextSetLabel <==> currentRevealIndex == |Words()|
    {
      var words := sets[currentSetIndex];
      var ri := currentRevealIndex;
      RevealConsistent(sets, currentSetIndex, ri, letterRevealCount, items, nextLabel);
      items := items[ri := words[ri]];
      currentRevealIndex := ri + 1;
      letterRevealCount := 1;
      showLettersActive := false;
      if ri + 1 == |words| {
        nextLabel := NextSetLabel;
      }
    }

    /** `goBack`: hide the last revealed word again behind the default mask,
        unless only the first word is shown. */
    method GoBack()
      requires Valid()
      modifies this
      ensures Valid()
      ensures currentSetIndex == old(currentSetIndex) && topText == old(topText)
      ensures old(currentRevealIndex) == 1 ==>
        && currentRevealIndex == 1
        && letterRevealCount == old(letterRevealCount)
        && showLettersActive == old(showLettersActive)
        && items == old(items) && nextLabel == old(nextLabel)
      ensures old(currentRevealIndex) > 1 ==>
        && currentRevealIndex == old(currentRevealIndex) - 1
        && items == old(items)[currentRevealIndex := DefaultMask(Words()[currentRevealIndex])]
        && letterRevealCount == 1 && !showLettersActive
        && nextLabel == NextLabel
    {
      var words := sets[currentSetIndex];
      if currentRevealIndex > 1 {
        GoBackConsistent(sets, currentSetIndex, currentRevealIndex, letterRevealCount, items, nextLabel);
        currentRevealIndex := currentRevealIndex - 1;
        var w := words[currentRevealIndex];
        items := items[currentRevealIndex := DefaultMask(w)];
        letterRevealCount := 1;
        showLettersActive := false;
        nextLabel := NextLabel;
      }
    }

    /** `toggleShowLetters`: switch the word at the pointer between the
        full-length hint and the default mask; nothing once the set is
        exhausted. */
    method ToggleShowLetters()
      requires Valid()
      modifies this
      ensures Valid()
      ensures currentSetIndex == old(currentSetIndex) && topText == old(topText)
      ensures currentRevealIndex == old(currentRevealIndex)
      ensures letterRevealCount == old(letterRevealCount)
      ensures nextLabel == old(nextLabel)
      ensures currentRevealIndex >= |Words()| ==>
        showLettersActive == old(showLettersActive) && items == old(items)
      ensures currentRevealIndex < |Words()| ==>
        && showLettersActive == !old(showLettersActive)
        && items == old(items)[currentRevealIndex :=
             if showLettersActive then FullMask(Words()[currentRevealIndex])
             else DefaultMask(Words()[currentRevealIndex])]
    {
      var words := sets[currentSetIndex];
      if currentRevealIndex >= |words| {
        return;
      }
      var w := words[currentRevealIndex];
      if !showLettersActive {
        HintConsistent(sets, currentSetIndex, currentRevealIndex, letterRevealCount, items, nextLabel,
                       letterRevealCount, FullMask(w));
        items := items[currentRevealIndex := FullMask(w)];
        showLettersActive := true;
      } else {
        HintConsistent(sets, currentSetIndex, currentRevealIndex, letterRevealCount, items, nextLabel,
                       letterRevealCount, DefaultMask(w));
        items := items[currentRevealIndex := DefaultMask(w)];
        showLettersActive := false;
      }
    }

    /** `showNextLetter`: show one more letter of the word at the pointer;
        nothing once the set is exhausted or the word is spelled out. */
    method ShowNextLetter()
      requires Valid()
      modifies this
      ensures Valid()
      ensures currentSetIndex == old(currentSetIndex) && topText == old(topText)
      ensures currentRevealIndex == old(currentRevealIndex)
      ensures showLettersActive == old(showLettersActive)
      ensures nextLabel == old(nextLabel)
      ensures currentRevealIndex >= |Words()| || old(letterRevealCount) >= |Words()[currentRevealIndex]| ==>
        letterRevealCount == old(letterRevealCount) && items == old(items)
      ensures currentRevealIndex < |Words()| && old(letterRevealCount) < |Words()[currentRevealIndex]| ==>
        && letterRevealCount == old(letterRevealCount) + 1
        && items == old(items)[currentRevealIndex :=
             LetterProgress(Words()[currentRevealIndex], letterRevealCount)]
    {
      var words := sets[currentSetIndex];
      if currentRevealIndex >= |words| {
        return;
      }
      var w := words[currentRevealIndex];
      if letterRevealCount < |w| {
        assert Masked(w, LetterProgress(w, letterRevealCount + 1));
        HintConsistent(sets, currentSetIndex, currentRevealIndex, letterRevealCount, items, nextLabel,
                       letterRevealCount + 1, LetterProgress(w, letterRevealCount + 1));
        letterRevealCount := letterRevealCount + 1;
        items := items[currentRevealIndex := LetterProgress(w, letterRevealCount)];
      }
    }

    /** `setTopText`: the heading names the number of words to connect. */
    method SetTopText()
      requires Valid()
      modifies this`topText
      ensures topText == ConnectText(|Words()|)
    {
      var words := sets[currentSetIndex];
      topText := ConnectText(|words|);
    }
  }
}
