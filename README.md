# Speadr pacing engine in Dafny

Speadr is a browser speed-reading tool. It shows the words of a text one at a
time, each under a fixed pair of guide lines. This project models the parts with
logic and proves properties of the model:

- **Tokenizer** (`tokenizer.dfy`) is the word list the page hands to the
  reader, `text.trim().split(" ")`. `Trim` removes the ECMAScript white-space
  and line-terminator code points at both ends. `Split` cuts at every single
  space and nowhere else. The proofs cover these facts:
  - there is always at least one token;
  - no token holds a space;
  - there is one token more than there are spaces;
  - joining the tokens with spaces gives back the trimmed text;
  - conversely, splitting a join of space-free pieces gives back those pieces.
- **Pivot** (`pivot.dfy`) is how one word is drawn. `center = min(floor(len/2), 2)`
  picks the red pivot character. The word is drawn as `slice(0, center)`, the
  pivot and `slice(center + 1)`. Those three pieces always put exactly the word
  on the screen, the empty word included.
- **Pacing** (`pacing.dfy`) is the reader's `useEffect`. It works as a state
  machine over an index, a `running` flag, an `ended` flag and a single timer
  slot:
  - `Effect` models the effect body;
  - `Cleanup` models `clearTimeout`;
  - `Fire` models the timer callback;
  - `Rerun` is cleanup-then-effect, which React performs whenever a
    dependency changes.

  The interval is a fraction `170000/speed` or `60000/speed`, compared by
  cross-multiplication. Class `Reader` holds the same state in fields. Its
  methods `Cancel`, `Step`, `Tick`, `Rerender`, `SetSpeed` and `SetRunning` are
  specified by those functions. `Play` drives the engine by its timer alone.
  The proofs show that from any word it shows each later word exactly once, in
  order, and then reports the end.
- **Speadr** (`app.dfy`) is the page. Class `App` holds the `text`, `speed` and
  `reading` cells and the mounted reader. Its handlers are `EditText`,
  `SetSpeed`, `Start` and `TimerFires`. The pure rules for the button face and
  for which screen is shown are functions.

The code differs in places from how such a reader is usually described
(splitting on runs of white space, pause, resume, seek and restart commands).
The model follows the code:
- Tokens are split on single spaces, not on runs of white space. A newline
  stays inside a token, two spaces give an empty token, and the empty text
  gives the single token `""`.
- The last word arms no timer. The end is reported as soon as it is shown.
- The button's only handler is `setReading(true)`. The "Pause" caption does not
  pause, and "Start" after the end does nothing.
- There is no seek, restart, stop, pause or resume operation in the source.
- `App` mounts `Reader` with only `text`, `speed` and `setEnded`
  (src/App.tsx:45). The component also declares `index`, `setIndex` and
  `running` (src/components/Reader.tsx:3-10). The model keeps those three in the
  `Reader` object, which the page mounts at index 0 with `running` true.
- Only the reader writes the page's `ended` cell, through `setEnded`, and
  nothing resets it. The model therefore reads it from the reader
  (`App.Ended`).

## Model

| member | source | states |
|---|---|---|
| `Tokenizer.TrimStart` | src/App.tsx:45 | the result is the longest suffix not starting with white space; everything dropped is white space |
| `Tokenizer.TrimEnd` | src/App.tsx:45 | the result is the longest prefix not ending with white space; everything dropped is white space |
| `Tokenizer.Trim` | src/App.tsx:45 | `trim()` keeps one contiguous piece of the text, cuts only white space on either side, and the piece neither starts nor ends with white space |
| `Tokenizer.Split` | src/App.tsx:45 | `split(" ")` yields at least one piece and no piece contains a space |
| `Tokenizer.SplitCount` | src/App.tsx:45 | the number of pieces is the number of spaces plus one, whatever other characters the text holds |
| `Tokenizer.JoinSplit` | src/App.tsx:45 | joining the pieces with single spaces gives back the original string |
| `Tokenizer.SplitJoin` | src/App.tsx:45 | splitting the space join of a non-empty list of space-free pieces gives back exactly that list (split is the inverse of join) |
| `Tokenizer.Tokens` | src/App.tsx:45 | the reader's token list has at least one element and no token contains a space, so index 0 is always in bounds |
| `Tokenizer.TokensJoin` | src/App.tsx:45 | joining the tokens with `" "` gives back exactly `text.trim()` |
| `Tokenizer.TokenCount` | src/App.tsx:45 | newlines and tabs are not separators: the token count is the number of spaces in the trimmed text plus one |
| `Tokenizer.TrimKeeps` | src/App.tsx:45 | text with no white space at either end is unchanged by `trim()` |
| `Tokenizer.TokensOfEmptyText` | src/App.tsx:45 | the empty text gives the single empty token `[""]` |
| `Tokenizer.TokensKeepNewline` | src/App.tsx:45 | surrounding white space is dropped but a newline inside the text stays inside its token |
| `Tokenizer.TokensOfDoubleSpace` | src/App.tsx:45 | two consecutive spaces produce an empty token |
| `Tokenizer.TokensOfSentence` | src/App.tsx:45 | "The quick, brown fox." gives the four tokens with their punctuation kept |
| `Pivot.Center` | src/components/Reader.tsx:13 | `center` is at most 2 and at most the length; for a non-empty word it is strictly less than the length; it is 2 exactly for words of four or more characters and 0 exactly for words of at most one |
| `Pivot.SplitAtCenter` | src/components/Reader.tsx:37-39 | the prefix has `center` characters, there is a pivot exactly when the word is non-empty, and prefix, pivot and suffix concatenate back to the word |
| `Pivot.FixedGazePoint` | src/components/Reader.tsx:13-39 | every word of four or more characters is drawn with exactly its first two characters left of the pivot |
| `Pivot.SplitExamples` | src/components/Reader.tsx:37-39 | `""`, `"a"`, `"cats"` and `"hello"` split as ("", none, ""), ("", a, ""), ("ca", t, "s") and ("he", l, "lo") |
| `Pacing.IntervalNumerator` | src/components/Reader.tsx:21-23 | the numerator is 170000 exactly when the last character is `.` or `,` and 60000 exactly otherwise, the empty word included |
| `Pacing.ClauseWaitsLonger` | src/components/Reader.tsx:23 | for any speed > 0 a word ending in `.` or `,` waits strictly longer than one that does not |
| `Pacing.OnlyLastCharacterCounts` | src/components/Reader.tsx:21-23 | words with the same last character wait alike, and any last character other than `.` and `,` gives 60000 |
| `Pacing.IntervalExamples` | src/components/Reader.tsx:23 | at speed 300, `cat` waits exactly 200 ms and `cat,` waits 170000/300 ms, between 566 and 567 ms |
| `Pacing.Effect` | src/components/Reader.tsx:16-26 | the effect never moves the index; it reports the end exactly on the last word while running; it arms a timer exactly while running before the last word, and that timer has the current word's interval; it keeps the engine consistent |
| `Pacing.CleanupKeepsConsistent` | src/components/Reader.tsx:27-29 | cleanup clears the pending timer, changes nothing else and keeps the engine consistent |
| `Pacing.FireKeepsBounds` | src/components/Reader.tsx:24-26 | a fired timer increases the index by exactly one and keeps `0 <= index < text.length` with no end reported |
| `Pacing.EndsOnLastWord` | src/components/Reader.tsx:17-19 | running on the last index, the effect sets `ended`, arms no timer and leaves the index unchanged |
| `Pacing.StoppedStaysPut` | src/components/Reader.tsx:16 | with `running` false, no timer is armed and neither the index nor `ended` changes |
| `Pacing.RerunIdempotent` | src/components/Reader.tsx:15-31 | cleaning up and re-running the effect a second time yields the same state: re-renders never stack timers or advance |
| `Pacing.PlayShowsEveryWordOnce` | src/components/Reader.tsx:15-31 | driven by its timer from any index while running, the reader shows each later word exactly once in increasing order, waits on each word but the last for that word's interval, and ends on the last word with no timer left |
| `Pacing.Reader.constructor` | src/components/Reader.tsx:3-12 | the reader is mounted on the first word with nothing armed and `ended` false |
| `Pacing.Reader.Cancel` | src/components/Reader.tsx:27-29 | the new state is the cleanup of the old one |
| `Pacing.Reader.Step` | src/components/Reader.tsx:16-26 | the new state is the effect applied to the old one, which keeps the engine consistent |
| `Pacing.Reader.Tick` | src/components/Reader.tsx:24-25 | the new state is the fired-timer state: index plus one, slot empty |
| `Pacing.Reader.Rerender` | src/components/Reader.tsx:15-31 | the new state is cleanup and then the effect, as on any dependency change |
| `Pacing.Reader.SetSpeed` | src/components/Reader.tsx:31 | a new speed re-runs the effect, so an outstanding timer is replaced by one at the new speed |
| `Pacing.Reader.SetRunning` | src/components/Reader.tsx:31 | a new `running` value re-runs the effect with that value |
| `Speadr.ButtonFace` | src/App.tsx:57-58 | the button shows the pause icon and "Pause" exactly when `reading && !ended`, and the play icon and "Start" otherwise |
| `Speadr.ScreenFor` | src/App.tsx:44-53 | the reader over `Tokens(text)` is shown exactly while `reading`, and otherwise the editor holding the text |
| `Speadr.FaceAfterStart` | src/App.tsx:56-58 | after the first click the reader is on token 0; a one-token text ends at once and the button shows "Start", while a longer text arms a timer and shows "Pause" |
| `Speadr.ReadsWholeText` | src/App.tsx:45 | reading any text from the start at any speed > 0 shows every token once in order and then ends |
| `Speadr.SentenceScenario` | src/App.tsx:45 | "The quick, brown fox." at 300 shows four words in order; of its three waits, the one on "quick," is longer than the others; it ends on "fox." |
| `Speadr.App.constructor` | src/App.tsx:11-14 | the initial state is `text = ""`, `speed = 500`, `reading = false` and `ended = false`, showing the editor and "Start" |
| `Speadr.App.EditText` | src/App.tsx:47-52 | the textarea, present only while not reading, replaces the text |
| `Speadr.App.SetSpeed` | src/App.tsx:39 | the speed cell takes the new value, and a mounted reader re-runs its effect at that speed |
| `Speadr.App.Start` | src/App.tsx:56 | the first click sets `reading` and mounts the reader on the tokens of the text, running its effect; any later click changes nothing (idempotent) |
| `Speadr.App.TimerFires` | src/components/Reader.tsx:24-26 | the reader's timer fires: the index moves on by one and the effect re-runs on the new word |

## Left out

- src/components/Modal.tsx, Button.tsx, Btn.tsx and Option.tsx are presentation and DOM event plumbing. The `selected` cell of the zen-mode option (src/App.tsx:10, 29-32) is also left out.
- src/constants.ts is static default settings. Its `speed: 350` is only one more positive speed.
- Wall-clock time is not modelled. A timer is a slot holding its delay, and the time already elapsed on it is not kept. A re-render of the page passes a fresh token array, which re-runs the reader's effect and restarts the current word's full interval. `RerunIdempotent` covers the state after such a re-run, but not the lost elapsed time.
- The delay `170000 / speed` is a floating-point division in the source. It is kept as an exact fraction. The rounding and clamping that `setTimeout` applies to its delay are not modelled.
- Speadr.App.SetSpeed: requires a positive whole number. The source stores any `Number(e.target.value)`, which may be 0, negative, fractional or NaN (src/App.tsx:39). The parse and those speeds are not modelled.
- Pacing.Reader.SetSpeed: requires a positive whole number as well. At speed 0 the source computes an infinite delay; what `setTimeout` does with it is not modelled.
- Pivot.Center: counts characters, where the source counts UTF-16 code units. A character outside the Basic Multilingual Plane counts as two there, so only such text can get a different `center` and split.
- React's scheduling and batching are not modelled. The model assumes that a `setState` of an equal value does not re-render and that cleanup runs before the next effect.
- As written, `App` does not pass `index`, `setIndex` and `running` to `Reader`. The component would then read `text[undefined]`. That failing render is not modelled; the model holds those props in the reader object instead.
