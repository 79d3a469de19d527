# Guitar note-name trainer — a Dafny model of its quiz core

`script.js` is a browser trainer with two quizzes. The **fretboard quiz**
marks a position on a 24-fret, six-string guitar in standard tuning. The
player names its pitch class with one of twelve answer buttons. The
**solfège quiz** shows a note name in one naming system (letters C D E … or
fixed-do ド レ ミ …) and asks for it in the other. Fretboard questions are
drawn from the positions that pass the player's filters:

- selected strings;
- a fret range (`1-12`, `13-24` or the whole neck);
- "hide semitones", which keeps only natural notes;
- an allow-list of natural notes.

A correct answer adds one point to the active quiz's score. Either answer
closes the question until the next one is generated.

This project models that core in five modules:

- `Instrument` (`instrument.dfy`):
  - the constants of lines 3-17 and 23-24;
  - the pitch class at a string and fret;
  - the MIDI notes that are sounded;
  - the two name tables.
- `Toggles` (`toggles.dfy`): the remove-if-present / append-if-absent list toggle that the note-filter and string-selector buttons use.
- `Generator` (`generator.dfy`):
  - the eligible positions as a specification (`Candidates`);
  - the nested collecting loop as imperative methods proved equal to it;
  - the pick from a draw of `Math.random()`;
  - the solfège target and prompt.
- `Quiz` (`quiz.dfy`): the mutable `state` object of lines 58-82 as three classes (`App`, `FretboardQuiz`, `SolfegeQuiz`), with `generateQuestion`, `handleAnswerClick` and the filter handlers as methods.
- `View` (`view.dfy`): the numeric geometry of `drawFretboard` and `createQuestionMarker`, such as which strings are drawn active and where the marker and the labels go.

`Math.random()` becomes an explicit parameter `u` with `0 <= u < 1`. An index is then `Floor(u * n)`, as in the source.

Whether a question is open is the boolean `isQuizActive`:

- `generateQuestion` sets that boolean before the fretboard generator runs;
- when nothing is eligible, the generator returns early and keeps the previous target, so that target stays answerable.

The model keeps this branch (`FretboardQuiz.Generate` returns `found == false` and leaves the question unchanged). It also proves that the branch is reached only when the filters admit no pitch class at all (`Generator.CandidatesEmptyIff`). Since the note-filter buttons only ever add natural notes, the branch is unreachable from the user interface (`Generator.NaturalFilterAlwaysMatches`).

## Model

| member | source | states |
|---|---|---|
| Instrument.PitchClassAt | script.js:271 | the note at a string and fret is a pitch class 0-11, and an open string sounds its tuning note |
| Instrument.PitchClassStep | script.js:271 | one fret higher is one semitone higher, modulo 12 |
| Instrument.PitchClassOctave | script.js:271 | twelve frets higher is the same pitch class |
| Instrument.FretOf | script.js:265-271 | every pitch class occurs on every string within any twelve consecutive frets |
| Instrument.MidiNote | script.js:307 | the MIDI note sounded for any position on the neck lies in the sample range 40-88 and is congruent, mod 12, to the answer key |
| Instrument.MiddleOctaveMidi | script.js:329 | the note sounded for a solfège target or an answer click lies in 60-71, inside the sample range, and is congruent to the pitch class |
| Instrument.TuningMatchesBaseMidi | script.js:7-17 | the open-string MIDI notes agree with the tuning table mod 12 |
| Instrument.NoteName | script.js:3-4 | names are non-empty; a name starts with a letter C-G, A or B exactly when it is a letter name |
| Instrument.NoteNamesDistinct | script.js:3-4 | within each naming system, different pitch classes have different names |
| Instrument.NaturalNames | script.js:3-6 | the k-th natural pitch class has the k-th letter of NATURAL_NOTES as its name |
| Instrument.NaturalIffBareName | script.js:3-5 | a pitch class is natural exactly when its letter name has no "(…)" enharmonic part, which the filter buttons strip (line 459) |
| Toggles.Without | script.js:483 | filtering keeps exactly the elements other than x, never lengthens the list, and keeps it free of duplicates |
| Toggles.Toggled | script.js:482-486 | a click flips x's membership, leaves every other value's membership alone, and keeps the list free of duplicates |
| Toggles.ToggleTwice | script.js:482-486 | two clicks restore the set of selected values, and the exact list when x was absent |
| Generator.TestedStrings | script.js:262 | the strings tested are valid 0-based indices, and never none |
| Generator.TestedStringsMembership | script.js:262 | string s is tested exactly when nothing is selected, or when string number s+1 is selected |
| Generator.TestedStringsDistinct | script.js:262 | a selection without repeats tests no string twice |
| Generator.Admits | script.js:272-277 | the two `continue` filters as one predicate: a pitch class is admitted when it is natural or semitones are shown, and when the allow-list is empty or contains it; `NaturalAllowListExample` and `CandidatesEmptyIff` are stated with it |
| Generator.Cell | script.js:271-278 | one inner iteration pushes at most one entry, and only the position itself with its pitch class |
| Generator.Row | script.js:270-279 | the entries pushed for one string lie on that string within the fret range, with frets strictly ascending (push order) |
| Generator.Candidates | script.js:269-280 | the whole list in push order, strings in the order tested, each string's row appended; `CandidatesMembership` characterises its contents |
| Generator.FretBounds | script.js:263-267 | the fret bounds lie on the 24-fret neck, span at least twelve frets, and start at fret 0 or 13 |
| Generator.RowStep | script.js:270-279 | one inner-loop iteration appends the position exactly when neither `continue` fires |
| Generator.CandidatesStep | script.js:269-280 | one outer-loop iteration appends that string's row |
| Generator.RowMembership | script.js:270-279 | a position is pushed for a string exactly when its fret is in range, its key is its pitch class and both filters admit it |
| Generator.CandidatesMembership | script.js:262-280 | generator soundness and completeness: a position is collected if and only if it satisfies every active filter |
| Generator.CandidatesDistinct | script.js:269-280 | no position is collected twice when no string is selected twice |
| Generator.CandidatesCount | script.js:265-280 | without filters, the number of candidates is the number of strings times the number of frets in range |
| Generator.LowRangeAllStringsCount | script.js:262-280 | the default settings (all strings, 1-12, no filter) give 78 candidates |
| Generator.NaturalAllowListExample | script.js:272-277 | with hide semitones and the allow-list C, E, exactly C and E are admitted |
| Generator.CandidatesEmptyIff | script.js:265-286 | nothing is collected exactly when the filters admit no pitch class |
| Generator.NaturalFilterAlwaysMatches | script.js:282-286 | an allow-list of natural notes, which is all the filter buttons can build (lines 458-465), always leaves some candidate |
| Generator.SharpOnlyFilterMatchesNothing | script.js:272-286 | hide semitones together with an allow-list holding only a sharp is the kind of setting that reaches the empty branch |
| Generator.CollectOnString | script.js:270-279 | the inner loop appends exactly that string's eligible positions, frets ascending |
| Generator.CollectPositions | script.js:261-280 | the nested loop yields the eligible positions in push order, and a position is in the result iff it is a candidate |
| Generator.PickIndex | script.js:288 | the drawn index is within the list |
| Generator.PickIndexReaches | script.js:288 | every index can be drawn by some value of Math.random() |
| Generator.NextTarget | script.js:282-291 | the chosen target is an eligible position, and there is none exactly when the filters admit no pitch class |
| Generator.NextTargetReaches | script.js:288-291 | every eligible position is drawn as the target by some value of Math.random() |
| Generator.ViewStart | script.js:293 | the display window starts at fret 0 or 12 and contains the target fret |
| Generator.SolfegeTarget | script.js:313-318 | the solfège target is a pitch class, and a natural one when semitones are hidden |
| Generator.SolfegeTargetReaches | script.js:313-318 | every pitch class the setting allows can be drawn |
| Generator.SolfegePrompt | script.js:320-326 | the prompt is spelled in the system opposite to the answer buttons', so it never equals an answer label |
| Generator.SolfegePromptDeterminesAnswer | script.js:320-326 | two targets get the same prompt only when they are the same pitch class |
| Quiz.AfterGenerate | script.js:282-293 | finding nothing keeps the previous question; an eligible position becomes a valid question with that target and a window that shows it |
| Quiz.FretboardQuiz.constructor | script.js:66-76 | the initial fretboard state: score 0, no target (-1), window at 0, no selection, range 1-12, empty allow-list |
| Quiz.FretboardQuiz.Generate | script.js:259-293 | a question is found iff the filters admit a pitch class; the new question is the drawn eligible position with a window that shows it; otherwise the old question is kept |
| Quiz.SolfegeQuiz.constructor | script.js:78-81 | the initial solfège state: score 0, no target |
| Quiz.SolfegeQuiz.Generate | script.js:311-318 | the new target is the drawn pitch class, natural when semitones are hidden |
| Quiz.App.constructor | script.js:58-82 | the initial state: fretboard tab, quiz active, open-string labels off, letter names, semitones shown |
| Quiz.App.CurrentTarget | script.js:338 | the active quiz's answer key is a pitch class, or -1 before the first question |
| Quiz.App.GenerateQuestion | script.js:248-257 | the quiz becomes active; the active quiz gets a new question and the other quiz keeps its own |
| Quiz.App.SwitchTab | script.js:420-438 | the tab becomes active and its quiz asks a new question, with no score reset |
| Quiz.App.HandleAnswerClick | script.js:333-367 | a click on an answered question is ignored; otherwise it is judged correct iff it equals the active quiz's key, an incorrect verdict carries the key, exactly the active quiz's score grows by one on a correct answer, and the question closes |
| Quiz.App.AnswerTwice | script.js:334-341 | a second click on the same question is ignored and adds no point |
| Quiz.App.ClickNoteFilterButton | script.js:477-488 | the clicked natural note is toggled in the allow-list and nothing else in it changes |
| Quiz.App.ClearNoteFilter | script.js:472-476 | the allow-list becomes empty |
| Quiz.App.SelectStringMode | script.js:510-530 | 'all' clears the string selection, a string number is toggled in it, and then a new question is generated |
| Quiz.App.SelectFretRange | script.js:532-539 | the fret range is set and a new question is generated |
| Quiz.App.ToggleNoteNameSystem | script.js:562-575 | the naming system flips; only on the solfège tab is a new question drawn |
| Quiz.App.ToggleSemitones | script.js:576-580 | hide semitones flips and a new question is generated |
| Quiz.App.ToggleOpenStrings | script.js:544-547 | the open-string labels flip on or off |
| View.IsStringActive | script.js:187 | a string is drawn active when nothing is selected or its number is; `ActiveStringsAreTested` ties it to the tested strings |
| View.ActiveStringsAreTested | script.js:187 | a string is drawn active exactly when questions are asked on it |
| View.StringY | script.js:184 | each string is drawn inside the board's height |
| View.FretLineX | script.js:151-154 | each fret line is inside the drawing's width |
| View.IsNut | script.js:155 | the nut replaces the fret line where the displayed fret is 0; `MarkerPlacement` puts open-string markers left of it |
| View.FretNumberX | script.js:196-199 | a fret number sits between its column's two fret lines |
| View.InlayYs | script.js:167-181 | inlays are drawn on the marked frets only, with two dots on frets 12 and 24, all inside the board |
| View.OpenLabelNote | script.js:212 | an open-string label names the open string's pitch class |
| View.MarkerDrawn | script.js:221 | the marker is drawn when its fret lies in the displayed window; `MarkerPlacement` proves this for every generated question |
| View.MarkerX | script.js:234-235 | the marker's x: left of the nut for an open string, else the column's centre; placed by `MarkerPlacement` |
| View.MarkerY | script.js:236 | the marker's y; `MarkerPlacement` proves it lies on the target's string |
| View.OpenLabelShown | script.js:207-211 | labels need the toggle on and the window at the nut, and skip the string whose open note is asked; `OpenLabelClearOfMarker` is stated with it |
| View.MarkerPlacement | script.js:221-236 | any generated question's marker is drawn: on its string, inside the drawing, left of the nut for an open string, otherwise centred between its fret's lines above its fret number |
| View.OpenLabelClearOfMarker | script.js:207-213 | labels appear only with the window at the nut, and never under the marker |
| View.HighRangeExample | script.js:293 | a target at fret 18 opens the window at 12 and sits in display column 6 |

## Left out

- Audio (lines 85-139): the Web Audio context, sample loading and `playTone` are left out. Only the MIDI note numbers passed to `playTone` are modelled.
- DOM and SVG output: element creation, colours, stroke widths, font sizes, CSS classes, messages and hint texts are left out. The model keeps only the numeric geometry and the verdict of an answer.
- Answer-button helpers (lines 370-408): `updateAnswerButtons`, `createAnswerButtons`, `resetAnswerButtons` and `disableAnswerButtons` only change how buttons look and whether they can be clicked. The model expresses this as `HandleAnswerClick` requiring a pitch class and ignoring clicks once a question is closed.
- `updateNoteFilterBtnText` (lines 440-450): the label of the filter button is presentational.
- Opening and closing the note-filter dialog (lines 467-471): closing it only calls `generateQuestion`, which is `App.GenerateQuestion`.
- Wiring of the "Next" buttons (lines 491-492) and of `init` (line 588): these only call `App.GenerateQuestion` and `App.SwitchTab`.
- The fretboard-visibility toggle (lines 548-556) and `hideFretboard`: they decide only whether the board is drawn and whether a click on it replays the sound.
- The sound toggle (lines 581-585) and `isSoundEnabled`: they only gate audio.
- Replaying the question's sound by clicking it (lines 496-508): this is audio.
- Event targets that are not buttons (`closest(...)` returning null): these are modelled by the handler not being called.
- Answer-button values: `parseInt` of button data is not modelled; the handlers take integers.
- Quiz.App.HandleAnswerClick: the model does not produce the message text naming the correct answer in the current naming system. It records the correct pitch class in the verdict instead.
- Generator.PickIndex: the model does not state that `Math.random()` is uniform, because that is a statistical property. It proves only that every index is reachable and that no position appears twice.
- Toggles.ToggleTwice: it does not claim that the exact list is restored when the value was already present, because the code re-appends it at the end. Only the set of values is restored.
