/** The quiz session of script.js: the mutable `state` object (lines 58-82)
    with its two per-mode sub-objects, question generation (248-318), the
    answer handler (333-367) and the handlers that change the fretboard
    filters (472-488, 515-538, 545, 577-580). */
module Quiz {
  import opened Instrument
  import opened Toggles
  import opened Generator

  /** Which quiz tab is active (`state.currentQuiz`). */
  datatype Tab = FretboardTab | SolfegeTab

  /** The outcome of one answer click: ignored because the question was
      already answered, correct, or incorrect with the right answer shown. */
  datatype Verdict = Ignored | Correct | Incorrect(correctNoteIndex: int)

  /** A string-selector button: 'all', or one 1-based string number. */
  datatype StringMode = AllStrings | StringNumber(number: int)

  /** The fretboard quiz's question: the target position, its answer key,
      and the first fret of the displayed window. */
  datatype Question = Question(targetString: int, targetFret: int, targetNoteIndex: int, fretViewStart: int)

  /** No question yet (the initial -1 values), or a position on the neck
      whose answer key is its pitch class and whose window shows it. */
  predicate ValidQuestion(q: Question) {
    || (q.targetString == -1 && q.targetFret == -1 && q.targetNoteIndex == -1 && q.fretViewStart == 0)
    || (&& IsStringIndex(q.targetString) && IsFret(q.targetFret)
        && q.targetNoteIndex == PitchClassAt(q.targetString, q.targetFret)
        && q.fretViewStart == ViewStart(q.targetFret))
  }

  /** The question after a generation attempt that found `next`: an
      eligible position on the neck becomes a valid question whose window
      shows it, and finding nothing keeps the previous question. */
  function AfterGenerate(q: Question, next: Option<Position>): (r: Question)
    ensures next.None? ==> r == q
    ensures next.Some? && IsStringIndex(next.value.stringIndex) && IsFret(next.value.fret)
            && next.value.noteIndex == PitchClassAt(next.value.stringIndex, next.value.fret) ==>
      && ValidQuestion(r)
      && (r.targetString, r.targetFret, r.targetNoteIndex) == (next.value.stringIndex, next.value.fret, next.value.noteIndex)
      && r.fretViewStart <= r.targetFret <= r.fretViewStart + DISPLAY_FRET_COUNT
  {
    match next
    case None => q
    case Some(p) => Question(p.stringIndex, p.fret, p.noteIndex, ViewStart(p.fret))
  }

  /** `state.fretboard`. */
  class FretboardQuiz {
    var score: nat
    var targetString: int
    var targetFret: int
    var targetNoteIndex: int
    var selectedStrings: seq<int>
    var quizFretRange: string
    var fretViewStart: int
    var noteFilter: seq<int>

    function CurrentQuestion(): Question
      reads this
    {
      Question(targetString, targetFret, targetNoteIndex, fretViewStart)
    }

    /** Selected strings are distinct 1-based string numbers; the note
        allow-list holds distinct natural pitch classes (the only ones its
        buttons offer, lines 458-465). */
    predicate Valid()
      reads this
    {
      && ValidSelection(selectedStrings) && NoDuplicates(selectedStrings)
      && NoDuplicates(noteFilter) && (forall x :: x in noteFilter ==> IsNatural(x))
      && ValidQuestion(CurrentQuestion())
    }

    constructor ()
      ensures Valid()
      ensures score == 0 && CurrentQuestion() == Question(-1, -1, -1, 0)
      ensures selectedStrings == [] && quizFretRange == "1-12" && noteFilter == []
    {
      score := 0;
      targetString, targetFret, targetNoteIndex := -1, -1, -1;
      selectedStrings := [];
      quizFretRange := "1-12";
      fretViewStart := 0;
      noteFilter := [];
    }

    /** `generateFretboardQuestion` with `u` the draw of `Math.random()`:
        when no position is eligible the previous question is kept;
        otherwise the drawn eligible position becomes the target and the
        window moves so that it is visible. */
    method Generate(hideSemitones: bool, u: real) returns (found: bool)
      requires Valid() && 0.0 <= u < 1.0
      modifies this`targetString, this`targetFret, this`targetNoteIndex, this`fretViewStart
      ensures Valid()
      ensures found <==> exists pc :: IsPitchClass(pc) && Admits(hideSemitones, noteFilter, pc)
      ensures CurrentQuestion() == AfterGenerate(old(CurrentQuestion()),
                                          NextTarget(selectedStrings, quizFretRange, hideSemitones, noteFilter, u))
      ensures !found ==> CurrentQuestion() == old(CurrentQuestion())
      ensures found ==> IsCandidate(TestedStrings(selectedStrings), FretBounds(quizFretRange).0,
                                    FretBounds(quizFretRange).1, hideSemitones, noteFilter,
                                    Position(targetString, targetFret, targetNoteIndex))
      ensures found ==> fretViewStart <= targetFret <= fretViewStart + DISPLAY_FRET_COUNT
    {
      var possiblePositions := CollectPositions(selectedStrings, quizFretRange, hideSemitones, noteFilter);
      ghost var next := NextTarget(selectedStrings, quizFretRange, hideSemitones, noteFilter, u);
      if |possiblePositions| == 0 {
        found := false;
        return;
      }
      var randomPosition := possiblePositions[PickIndex(u, |possiblePositions|)];
      assert next == Some(randomPosition);
      targetString := randomPosition.stringIndex;
      targetFret := randomPosition.fret;
      targetNoteIndex := randomPosition.noteIndex;
      fretViewStart := if targetFret > 12 then 12 else 0;
      found := true;
    }
  }

  /** `state.solfege`. */
  class SolfegeQuiz {
    var score: nat
    var targetNoteIndex: int

    predicate Valid()
      reads this
    {
      targetNoteIndex == -1 || IsPitchClass(targetNoteIndex)
    }

    constructor ()
      ensures Valid() && score == 0 && targetNoteIndex == -1
    {
      score := 0;
      targetNoteIndex := -1;
    }

    /** `generateSolfegeQuestion`: a natural pitch class when semitones are
        hidden, any pitch class otherwise. */
    method Generate(hideSemitones: bool, u: real)
      requires 0.0 <= u < 1.0
      modifies this`targetNoteIndex
      ensures Valid()
      ensures targetNoteIndex == SolfegeTarget(hideSemitones, u)
      ensures IsPitchClass(targetNoteIndex) && (hideSemitones ==> IsNatural(targetNoteIndex))
    {
      if hideSemitones {
        var randomIndex := PickIndex(u, |NATURAL_INDICES|);
        targetNoteIndex := NATURAL_INDICES[randomIndex];
      } else {
        targetNoteIndex := PickIndex(u, 12);
      }
    }
  }

  /** The whole `state` object, with the event handlers that change it. */
  class App {
    var currentQuiz: Tab
    var isQuizActive: bool
    var showOpenStrings: bool
    var noteNameSystem: NameSystem
    var hideSemitones: bool
    const fretboard: FretboardQuiz
    const solfege: SolfegeQuiz

    predicate Valid()
      reads this, fretboard, solfege
    {
      fretboard.Valid() && solfege.Valid()
    }

    constructor ()
      ensures Valid() && fresh(fretboard) && fresh(solfege)
      ensures currentQuiz == FretboardTab && isQuizActive && !showOpenStrings && !hideSemitones
      ensures noteNameSystem == English
      ensures fretboard.score == 0 && solfege.score == 0
      ensures fretboard.CurrentQuestion() == Question(-1, -1, -1, 0) && solfege.targetNoteIndex == -1
      ensures fretboard.selectedStrings == [] && fretboard.quizFretRange == "1-12" && fretboard.noteFilter == []
    {
      currentQuiz := FretboardTab;
      isQuizActive := true;
      showOpenStrings := false;
      noteNameSystem := English;
      hideSemitones := false;
      fretboard := new FretboardQuiz();
      solfege := new SolfegeQuiz();
    }

    /** The answer key of the active quiz (line 338): a pitch class, or -1
        before the first question. */
    function CurrentTarget(): (key: int)
      reads this, fretboard, solfege
      ensures Valid() ==> key == -1 || IsPitchClass(key)
    {
      if currentQuiz == FretboardTab then fretboard.targetNoteIndex else solfege.targetNoteIndex
    }

    /** The questions after `generateQuestion` with draw `u`, given those
        before it: the active quiz got a new question, the other kept its own. */
    ghost predicate Regenerated(before: Question, solfegeBefore: int, u: real)
      reads this, fretboard, solfege
      requires ValidSelection(fretboard.selectedStrings) && 0.0 <= u < 1.0
    {
      if currentQuiz == FretboardTab then
        && fretboard.CurrentQuestion() == AfterGenerate(before, NextTarget(fretboard.selectedStrings, fretboard.quizFretRange,
                                                                   hideSemitones, fretboard.noteFilter, u))
        && solfege.targetNoteIndex == solfegeBefore
      else
        && fretboard.CurrentQuestion() == before
        && solfege.targetNoteIndex == SolfegeTarget(hideSemitones, u)
    }

    /** `generateQuestion`: the quiz accepts an answer again, and the active
        quiz draws a new question. Because the note allow-list only ever
        holds natural notes, a fretboard question is always found. */
    method GenerateQuestion(u: real) returns (found: bool)
      requires Valid() && 0.0 <= u < 1.0
      modifies this`isQuizActive, fretboard`targetString, fretboard`targetFret,
               fretboard`targetNoteIndex, fretboard`fretViewStart, solfege`targetNoteIndex
      ensures Valid() && isQuizActive && found
      ensures Regenerated(old(fretboard.CurrentQuestion()), old(solfege.targetNoteIndex), u)
    {
      isQuizActive := true;
      if currentQuiz == FretboardTab {
        found := fretboard.Generate(hideSemitones, u);
        NaturalFilterAlwaysMatches(fretboard.selectedStrings, fretboard.quizFretRange, hideSemitones, fretboard.noteFilter);
      } else {
        solfege.Generate(hideSemitones, u);
        found := true;
      }
    }

    /** `switchTab`: make `tab` active and ask its next question; neither
        quiz's score is reset. */
    method SwitchTab(tab: Tab, u: real)
      requires Valid() && 0.0 <= u < 1.0
      modifies this`currentQuiz, this`isQuizActive, fretboard`targetString, fretboard`targetFret,
               fretboard`targetNoteIndex, fretboard`fretViewStart, solfege`targetNoteIndex
      ensures Valid() && currentQuiz == tab && isQuizActive
      ensures Regenerated(old(fretboard.CurrentQuestion()), old(solfege.targetNoteIndex), u)
    {
      currentQuiz := tab;
      var _ := GenerateQuestion(u);
    }

    /** `handleAnswerClick` for the button of pitch class `clickedNoteIndex`:
        ignored once the question is answered; otherwise the verdict compares
        the click with the active quiz's answer key, a correct answer adds
        exactly one to that quiz's score, and the question is closed. */
    method HandleAnswerClick(clickedNoteIndex: int) returns (verdict: Verdict)
      requires Valid() && IsPitchClass(clickedNoteIndex)
      modifies this`isQuizActive, fretboard`score, solfege`score
      ensures Valid() && !isQuizActive
      ensures !old(isQuizActive) <==> verdict == Ignored
      ensures old(isQuizActive) ==> (verdict == Correct <==> clickedNoteIndex == CurrentTarget())
      ensures verdict.Incorrect? ==> verdict.correctNoteIndex == CurrentTarget()
      ensures fretboard.score == old(fretboard.score) + if verdict == Correct && currentQuiz == FretboardTab then 1 else 0
      ensures solfege.score == old(solfege.score) + if verdict == Correct && currentQuiz == SolfegeTab then 1 else 0
    {
      if !isQuizActive {
        return Ignored;
      }
      var targetNoteIndex := if currentQuiz == FretboardTab then fretboard.targetNoteIndex else solfege.targetNoteIndex;
      var isCorrect := clickedNoteIndex == targetNoteIndex;
      isQuizActive := false;
      if isCorrect {
        if currentQuiz == FretboardTab {
          fretboard.score := fretboard.score + 1;
        } else {
          solfege.score := solfege.score + 1;
        }
        verdict := Correct;
      } else {
        verdict := Incorrect(targetNoteIndex);
      }
    }

    /** Two clicks on one question: the second is ignored and changes no
        score. */
    method AnswerTwice(first: int, second: int) returns (v1: Verdict, v2: Verdict)
      requires Valid() && isQuizActive && IsPitchClass(first) && IsPitchClass(second)
      modifies this`isQuizActive, fretboard`score, solfege`score
      ensures v1 != Ignored && v2 == Ignored
      ensures fretboard.score + solfege.score == old(fretboard.score + solfege.score) + if v1 == Correct then 1 else 0
    {
      v1 := HandleAnswerClick(first);
      v2 := HandleAnswerClick(second);
    }

    /** A click in the note-filter dialog (lines 477-488): toggles that
        natural note in the allow-list; the question is not regenerated. */
    method ClickNoteFilterButton(noteIndex: int)
      requires Valid() && IsNatural(noteIndex)
      modifies fretboard`noteFilter
      ensures Valid()
      ensures fretboard.noteFilter == Toggled(old(fretboard.noteFilter), noteIndex)
      ensures noteIndex in fretboard.noteFilter <==> noteIndex !in old(fretboard.noteFilter)
      ensures forall x :: x != noteIndex ==> (x in fretboard.noteFilter <==> x in old(fretboard.noteFilter))
    {
      if noteIndex in fretboard.noteFilter {
        fretboard.noteFilter := Without(fretboard.noteFilter, noteIndex);
      } else {
        fretboard.noteFilter := fretboard.noteFilter + [noteIndex];
      }
    }

    /** The dialog's clear button (lines 472-476): no note restriction. */
    method ClearNoteFilter()
      requires Valid()
      modifies fretboard`noteFilter
      ensures Valid() && fretboard.noteFilter == []
    {
      fretboard.noteFilter := [];
    }

    /** A click in the string selector (lines 510-530): 'all' clears the
        selection, a string number is toggled in it; then a new question. */
    method SelectStringMode(mode: StringMode, u: real)
      requires Valid() && 0.0 <= u < 1.0
      requires mode.StringNumber? ==> 1 <= mode.number <= STRING_COUNT
      modifies fretboard`selectedStrings, this`isQuizActive, fretboard`targetString, fretboard`targetFret,
               fretboard`targetNoteIndex, fretboard`fretViewStart, solfege`targetNoteIndex
      ensures Valid() && isQuizActive
      ensures fretboard.selectedStrings ==
        match mode
        case AllStrings => []
        case StringNumber(n) => Toggled(old(fretboard.selectedStrings), n)
      ensures Regenerated(old(fretboard.CurrentQuestion()), old(solfege.targetNoteIndex), u)
    {
      match mode {
        case AllStrings =>
          fretboard.selectedStrings := [];
        case StringNumber(stringNum) =>
          if stringNum in fretboard.selectedStrings {
            fretboard.selectedStrings := Without(fretboard.selectedStrings, stringNum);
          } else {
            fretboard.selectedStrings := fretboard.selectedStrings + [stringNum];
          }
      }
      var _ := GenerateQuestion(u);
    }

    /** A click in the fret-range selector (lines 532-539). */
    method SelectFretRange(range: string, u: real)
      requires Valid() && 0.0 <= u < 1.0
      modifies fretboard`quizFretRange, this`isQuizActive, fretboard`targetString, fretboard`targetFret,
               fretboard`targetNoteIndex, fretboard`fretViewStart, solfege`targetNoteIndex
      ensures Valid() && isQuizActive && fretboard.quizFretRange == range
      ensures Regenerated(old(fretboard.CurrentQuestion()), old(solfege.targetNoteIndex), u)
    {
      fretboard.quizFretRange := range;
      var _ := GenerateQuestion(u);
    }

    /** The note-name toggle (lines 562-575): switches between letter and
        solfège names; on the solfège tab, whose prompt is spelled in the
        other system, a new question is drawn, while the fretboard quiz only
        redraws and keeps its question. */
    method ToggleNoteNameSystem(u: real)
      requires Valid() && 0.0 <= u < 1.0
      modifies this`noteNameSystem, this`isQuizActive, fretboard`targetString, fretboard`targetFret,
               fretboard`targetNoteIndex, fretboard`fretViewStart, solfege`targetNoteIndex
      ensures Valid()
      ensures noteNameSystem == (if old(noteNameSystem) == English then Solfege else English)
      ensures currentQuiz == FretboardTab ==>
        && isQuizActive == old(isQuizActive)
        && fretboard.CurrentQuestion() == old(fretboard.CurrentQuestion())
        && solfege.targetNoteIndex == old(solfege.targetNoteIndex)
      ensures currentQuiz == SolfegeTab ==>
        && isQuizActive
        && Regenerated(old(fretboard.CurrentQuestion()), old(solfege.targetNoteIndex), u)
    {
      noteNameSystem := if noteNameSystem == English then Solfege else English;
      if currentQuiz == SolfegeTab {
        var _ := GenerateQuestion(u);
      }
    }

    /** The "hide semitones" toggle (lines 576-580). */
    method ToggleSemitones(u: real)
      requires Valid() && 0.0 <= u < 1.0
      modifies this`hideSemitones, this`isQuizActive, fretboard`targetString, fretboard`targetFret,
               fretboard`targetNoteIndex, fretboard`fretViewStart, solfege`targetNoteIndex
      ensures Valid() && isQuizActive && hideSemitones == !old(hideSemitones)
      ensures Regenerated(old(fretboard.CurrentQuestion()), old(solfege.targetNoteIndex), u)
    {
      hideSemitones := !hideSemitones;
      var _ := GenerateQuestion(u);
    }

    /** The "show open strings" toggle (line 545); only the drawing changes. */
    method ToggleOpenStrings()
      requires Valid()
      modifies this`showOpenStrings
      ensures Valid() && showOpenStrings == !old(showOpenStrings)
    {
      showOpenStrings := !showOpenStrings;
    }
  }
}
