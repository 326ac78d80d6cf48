# Word Chain: reveal engine and countdown timer

A Dafny model of the game logic of the Word Chain youth-group web app
(`WordChain.js`). The game shows one set of related words at a time. The first
word is shown in full. Every other word is shown as its first letter followed
by blanks. The player reveals the words one by one, can step back, can ask for
two kinds of hint on the next word, and races a 90-second countdown.

The model has four modules:

- `Text` (`text.dfy`) holds the string building blocks the page uses:
  - `Blanks(n)` is `Array(n).fill("_").join(" ")`.
  - `Spaced(s)` is `s.split("").join(" ")`.
  - `NatToString` is decimal `toString`, and `PadStart` is `padStart`.
  - `ParseNat` reads decimal text back; the round-trip lemmas use it to
    show that no information is lost.
- `Masks` (`masks.dfy`) holds the three texts a not-yet-revealed word can show:
  - the default mask: the first letter and four blanks, whatever the length;
  - the full-length hint: the first letter and one blank per remaining letter;
  - the letter-by-letter hint.
  Lemmas relate the three to each other.
- `RevealEngine` (`reveal.dfy`) has the class `Game`. Its fields are the page's
  module-level state:
  - `currentSetIndex`, `currentRevealIndex`, `letterRevealCount` and
    `showLettersActive`;
  - the display buffers: `items` (one text per `<li>`), `nextLabel` (the Next
    button) and `topText` (the heading).

  The invariant itself is the predicate `Consistent` over the values of
  that state, and one lemma per kind of step shows that the step keeps it.
  Each click handler is a method with `modifies this`. Its `ensures` give the
  complete new state in terms of the old one. Each method also preserves
  `Valid()`, which says:
  - the indices are in range;
  - every word before the pointer is shown in full;
  - every word from the pointer on shows one of its masked forms;
  - the letter count never exceeds the length of the word being hinted;
  - the button reads "Next Set" exactly when a set of two or more words has
    been revealed to its end.
- `Timer` (`timer.dfy`) has the class `Countdown`. Its fields are `timeLeft`,
  a `running` flag that stands for "the one-second interval is active", and
  the timer element's text. `UpdateTimer` is the function the interval
  calls. `Start`, `Pause` and `Reset` are the button handlers.

Some source behaviour differs from what one might expect. The model keeps the
source behaviour:

- Every `updateTimer` call decrements `timeLeft`, including the call that
  shows "Time's up!".
- Reset calls `updateTimer`, so it shows `1:30`.
- The start handler runs `updateTimer` and then starts the interval even when
  the time is already up. The next tick stops the interval again.
- `goBack` re-masks only the slot it moves back to. A hint shown on the slot
  the pointer left stays on screen. `Valid()` still holds, because that text
  is one of the masked forms.
- Turning the full-length hint off does not reset `letterRevealCount`.
- For a one-letter word, the full-length hint is the letter and a trailing
  space (`FullMaskIsFirstLetterProgress`).
- An expiring update leaves `timeLeft` at -1, not 0.
- A reset leaves `timeLeft` at 89, the initial value minus one.
- A one-word set keeps the label "Next", although it is fully revealed and
  the next press moves on to the following set.
- `renderSet` runs first on set 0 and afterwards only on an index reduced
  modulo the number of sets, so it never sees an out-of-range index. It
  does assume at least one set and no empty word; `WellFormed` states
  exactly that, and the `Game` constructor requires it.

## Model

| member | source | states |
|---|---|---|
| `Text.Blanks` | WordChain.js:42 | n blanks joined by single spaces: length 2n-1 (0 for n = 0), underscores at even positions, spaces at odd ones |
| `Text.Spaced` | WordChain.js:162 | the letters of s joined by single spaces: letter i at position 2i, spaces between, no separator at either end |
| `Text.NatToString` | WordChain.js:183 | decimal text of a number: non-empty, digits only, no leading zero, one digit exactly below 10, two digits from 10 to 99 |
| `Text.ParseNatAcceptsDigits` | WordChain.js:183 | the reading used for the round trips accepts exactly the non-empty runs of decimal digits, so what `toString` writes is always readable |
| `Text.NatToStringRoundTrip` | WordChain.js:183 | reading the decimal text of n back gives n |
| `Text.PadStart` | WordChain.js:183 | `padStart` with a one-character pad: length the larger of width and the length of s, ends with s, pad characters in front |
| `Masks.DefaultMask` | WordChain.js:42-43 | the default mask is nine characters: the first letter then " _ _ _ _", whatever the word's length |
| `Masks.FullMask` | WordChain.js:141-142 | the full-length hint: first letter, a space, then one blank per remaining letter; length 2 for a one-letter word |
| `Masks.LetterProgress` | WordChain.js:162-164 | with k letters shown, position 2i holds letter i for i < k and a blank otherwise, odd positions are spaces, and there is no trailing separator (length twice the word length minus one) |
| `Masks.DefaultIsFullIffFiveLetters` | WordChain.js:141-147 | the four-blank mask and the full-length hint coincide exactly for five-letter words |
| `Masks.FullMaskIsFirstLetterProgress` | WordChain.js:139-143 | the full-length hint equals the letter hint with one letter shown, except for one-letter words, where it has an extra trailing space |
| `Masks.LetterProgressComplete` | WordChain.js:159-165 | once the count reaches the word's length the slot spells the whole word space-separated, with no blank left |
| `Timer.SecondsRoundTrip` | WordChain.js:182-183 | the seconds field is always two characters and reads back as the seconds, with a leading zero below 10 |
| `Timer.Clock` | WordChain.js:181-183 | the `minutes:ss` text of t (minutes, a colon, seconds padded to two digits) reads back as t, so neither minutes nor seconds are lost; it is at least four characters and the minutes carry no leading zero (a leading 0 is followed by the colon) |
| `Timer.ClockOfInitialTime` | WordChain.js:8 | 90 seconds show as 1:30 |
| `Timer.TimerText` | WordChain.js:181-188 | the timer shows "Time's up!" exactly when timeLeft <= 0, and otherwise a clock text that reads back as timeLeft, is at least four characters and has no leading zero on the minutes |
| `Timer.TimerTextOfInitialTime` | WordChain.js:76-79 | the update run by the reset handler shows 1:30 |
| `Timer.TimerTextOfLastSecond` | WordChain.js:180-189 | with one second left the timer shows 0:01 |
| `Timer.Countdown.constructor` | WordChain.js:8-10 | at load time: 90 seconds, no interval, the element's own text |
| `Timer.Countdown.UpdateTimer` | WordChain.js:180-190 | shows TimerText of the old timeLeft, stops the interval exactly when the old timeLeft <= 0, and always decrements timeLeft by one |
| `Timer.Countdown.Start` | WordChain.js:62-67 | one immediate update, then the interval is running |
| `Timer.Countdown.Pause` | WordChain.js:70-74 | the interval stops; the time left and the display are unchanged |
| `Timer.Countdown.Reset` | WordChain.js:76-82 | the interval stops, the display shows the text for the initial time (1:30, by `TimerTextOfInitialTime`), and timeLeft is the initial time minus one |
| `RevealEngine.ConnectText` | WordChain.js:171-174 | the heading is "Connect " followed by decimal text that reads back as the number of words, with no leading zero (a leading 0 is the whole number) |
| `RevealEngine.RenderedConsistent` | WordChain.js:24-47 | the list `renderSet` builds (word 0 in full, every other word masked, pointer and letter count at 1, label "Next") satisfies the engine invariant |
| `RevealEngine.RevealConsistent` | WordChain.js:91-102 | revealing the word at the pointer, advancing the pointer and resetting the count keeps the invariant; the label was "Next" before and becomes "Next Set" exactly when the pointer reaches the end |
| `RevealEngine.GoBackConsistent` | WordChain.js:113-128 | stepping the pointer back, re-masking the slot it lands on and resetting the label to "Next" keeps the invariant |
| `RevealEngine.HintConsistent` | WordChain.js:139-164 | replacing the slot at the pointer with any masked form of its word, with a letter count within the word's length, keeps the invariant |
| `RevealEngine.AllRevealed` | WordChain.js:91-102 | once a set of two or more words is revealed to its end, the list shows exactly the set's words and the button reads "Next Set" |
| `RevealEngine.Game.constructor` | WordChain.js:16-22 | after loading, set 0 is rendered and the invariant holds |
| `RevealEngine.Game.RenderSet` | WordChain.js:24-47 | pointers and hints reset to 1/1/off, label "Next", one item per word: word 0 in full, every other word as its default mask; invariant established |
| `RevealEngine.Game.RevealNext` | WordChain.js:86-108 | below the end of the set: only the slot at the pointer changes, to the word itself; the pointer advances by one; hints reset; "Next Set" exactly when the set is now fully revealed. At the end: the set index wraps to (i + 1) mod the number of sets, 0 after the last set, and the new set is rendered. Invariant preserved |
| `RevealEngine.Game.RevealWord` | WordChain.js:91-102 | the first branch of `revealNext`: the slot at the pointer becomes its word, the pointer advances by one, the hints reset, the label reads "Next Set" exactly when the pointer has reached the end; invariant preserved |
| `RevealEngine.Game.GoBack` | WordChain.js:110-130 | with the pointer at 1 nothing changes. Otherwise the pointer decreases by one, only that slot changes, back to its default mask; hints reset and the label is "Next". Invariant preserved |
| `RevealEngine.Game.ToggleShowLetters` | WordChain.js:132-150 | nothing changes once the set is exhausted. Otherwise the flag flips, and only the pointer's slot changes: to the full-length hint when turned on, the default mask when turned off. The pointer and letter count never change |
| `RevealEngine.Game.ShowNextLetter` | WordChain.js:152-166 | nothing changes when the set is exhausted or the count has reached the word's length. Otherwise the count grows by one and only the pointer's slot changes, to the letter hint with that many letters. The count never exceeds the word's length |
| `RevealEngine.Game.SetTopText` | WordChain.js:171-175 | the heading becomes ConnectText of the current set's size, and nothing else changes |

## Left out

- Loading the game data (`fetch("game.json")` and JSON parsing) is asynchronous I/O. The `Game` constructor receives the loaded sets, and `WellFormed` states what the code relies on: at least one set, and no empty word.
- Empty words are excluded by `WellFormed`. In the page, an empty word shows as "undefined _ _ _ _", and turning on its full-length hint throws a `RangeError`.
- An empty list of sets is excluded by `WellFormed`, because `renderSet` would throw on it. Before the data has loaded no handler is wired (`setupButtons` runs only after the first `renderSet`), so clicks, the Space key and the timer buttons do nothing. Only the once-per-second heading poll runs, and it throws because `sets` is still empty. The model starts at the loaded state, so the timer is usable only from then on.
- DOM lookups, element creation and the buttons' `disabled` flags are not modelled. The list, the button label, the heading and the timer text are plain strings. As a result, every handler may be invoked at any time, including ones the page would have disabled.
- `Timer.Countdown.Start`: a second start while the interval is already running would, in the page, start a second interval. The single `running` flag cannot represent two intervals, so this case is modelled as one running interval.
- Event-listener wiring and the Space-key shortcut (which calls `revealNext`) are glue. Each handler is a method that the environment calls.
- `setInterval` and `clearInterval` scheduling is not modelled. An interval firing is a call of `UpdateTimer` while `running` holds. The once-per-second heading poll is a call of `SetTopText`.
- Strings are sequences of Unicode scalar values, while the page's `length`, `w[0]`, `slice` and `split("")` work on UTF-16 code units. A word with a character outside the Basic Multilingual Plane therefore renders differently in the page. There, `w[0]` is half of a surrogate pair, the full-length hint gets one extra blank per such character, and the letter hint splits the pair with a space. The model treats each such character as one letter.
