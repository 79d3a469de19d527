/** The question generators of both quizzes (script.js:259-318): which
    fretboard positions are eligible under the active filters, the loop that
    collects them, and how one of them (or one pitch class, in the solfège
    quiz) is picked from a draw of `Math.random()`. */
module Generator {
  import opened Instrument
  import opened Toggles

  datatype Option<T> = None | Some(value: T)

  /** One entry of `possiblePositions`: a string (0-based), a fret and the
      pitch class found there. */
  datatype Position = Position(stringIndex: int, fret: int, noteIndex: int)

  /** `selectedStrings` holds 1-based string numbers, as on the buttons. */
  predicate ValidSelection(selected: seq<int>) {
    forall x :: x in selected ==> 1 <= x <= STRING_COUNT
  }

  predicate ValidStrings(strings: seq<int>) {
    forall i :: 0 <= i < |strings| ==> IsStringIndex(strings[i])
  }

  /** `stringsToTest`: the selected string numbers shifted to 0-based
      indices, or all six strings when nothing is selected. */
  function TestedStrings(selected: seq<int>): (strings: seq<int>)
    requires ValidSelection(selected)
    ensures ValidStrings(strings) && |strings| > 0
  {
    if |selected| > 0 then
      assert forall i :: 0 <= i < |selected| ==> selected[i] in selected;
      seq(|selected|, i requires 0 <= i < |selected| => selected[i] - 1)
    else [0, 1, 2, 3, 4, 5]
  }

  /** String index `s` is tested exactly when no string is selected or
      string number `s + 1` is. */
  lemma TestedStringsMembership(selected: seq<int>, s: int)
    requires ValidSelection(selected)
    ensures s in TestedStrings(selected) <==> if |selected| == 0 then IsStringIndex(s) else s + 1 in selected
  {
    if |selected| > 0 && s + 1 in selected {
      var i :| 0 <= i < |selected| && selected[i] == s + 1;
      assert TestedStrings(selected)[i] == s;
    }
  }

  /** A selection without repeats tests no string twice. */
  lemma TestedStringsDistinct(selected: seq<int>)
    requires ValidSelection(selected) && NoDuplicates(selected)
    ensures NoDuplicates(TestedStrings(selected))
  {
  }

  /** `minFret` and `maxFret` (inclusive) for the range button's value
      '1-12', '13-24', or anything else, which means the whole neck. */
  function FretBounds(range: string): (bounds: (int, int))
    ensures 0 <= bounds.0 && bounds.1 <= FRET_COUNT
    ensures bounds.1 - bounds.0 >= 11
    ensures bounds.0 == 0 || bounds.0 == 13
  {
    if range == "1-12" then (0, 12)
    else if range == "13-24" then (13, 24)
    else (0, 24)
  }

  /** The two `continue` filters of the collecting loop: a pitch class is
      admitted when it is natural or semitones are shown, and when the note
      allow-list is empty or contains it. */
  predicate Admits(hideSemitones: bool, noteFilter: seq<int>, pc: int) {
    (!hideSemitones || IsNatural(pc)) && (|noteFilter| == 0 || pc in noteFilter)
  }

  /** What the source promises of each entry of `possiblePositions`. */
  predicate IsCandidate(strings: seq<int>, minFret: int, maxFret: int,
                        hideSemitones: bool, noteFilter: seq<int>, p: Position)
  {
    && p.stringIndex in strings
    && IsStringIndex(p.stringIndex)
    && 0 <= minFret <= p.fret <= maxFret
    && p.noteIndex == PitchClassAt(p.stringIndex, p.fret)
    && Admits(hideSemitones, noteFilter, p.noteIndex)
  }

  // The order in which the nested loop pushes positions: strings in the
  // order of `strings`, frets ascending.

  /** What one inner-loop iteration pushes: at most the position itself. */
  function Cell(s: int, fret: int, hideSemitones: bool, noteFilter: seq<int>): (c: seq<Position>)
    requires IsStringIndex(s) && 0 <= fret
    ensures |c| <= 1
    ensures forall k :: 0 <= k < |c| ==> c[k] == Position(s, fret, PitchClassAt(s, fret))
  {
    var pc := PitchClassAt(s, fret);
    if Admits(hideSemitones, noteFilter, pc) then [Position(s, fret, pc)] else []
  }

  /** The positions pushed for string `s` and frets `lo .. hi-1`. */
  function Row(s: int, lo: int, hi: int, hideSemitones: bool, noteFilter: seq<int>): (r: seq<Position>)
    requires IsStringIndex(s) && 0 <= lo
    ensures forall k :: 0 <= k < |r| ==> r[k].stringIndex == s && lo <= r[k].fret < hi
    ensures forall i, j :: 0 <= i < j < |r| ==> r[i].fret < r[j].fret
    decreases hi - lo
  {
    if hi <= lo then []
    else Row(s, lo, hi - 1, hideSemitones, noteFilter) + Cell(s, hi - 1, hideSemitones, noteFilter)
  }

  /** One more fret of the inner loop: the row grows by the position at
      `fret` exactly when both filters admit its pitch class. */
  lemma RowStep(s: int, lo: int, fret: int, hideSemitones: bool, noteFilter: seq<int>)
    requires IsStringIndex(s) && 0 <= lo <= fret
    ensures var pc := PitchClassAt(s, fret);
      if (hideSemitones && !IsNatural(pc)) || (|noteFilter| > 0 && pc !in noteFilter) then
        Row(s, lo, fret + 1, hideSemitones, noteFilter) == Row(s, lo, fret, hideSemitones, noteFilter)
      else
        Row(s, lo, fret + 1, hideSemitones, noteFilter) == Row(s, lo, fret, hideSemitones, noteFilter) + [Position(s, fret, pc)]
  {
  }

  /** The positions pushed for all of `strings` and frets `minFret .. maxFret`. */
  function Candidates(strings: seq<int>, minFret: int, maxFret: int,
                      hideSemitones: bool, noteFilter: seq<int>): seq<Position>
    requires ValidStrings(strings) && 0 <= minFret
  {
    if strings == [] then []
    else
      Candidates(strings[..|strings| - 1], minFret, maxFret, hideSemitones, noteFilter)
      + Row(strings[|strings| - 1], minFret, maxFret + 1, hideSemitones, noteFilter)
  }

  /** One more string of the outer loop: its row is appended. */
  lemma CandidatesStep(strings: seq<int>, k: int, minFret: int, maxFret: int,
                       hideSemitones: bool, noteFilter: seq<int>)
    requires ValidStrings(strings) && 0 <= minFret && 0 <= k < |strings|
    ensures Candidates(strings[..k + 1], minFret, maxFret, hideSemitones, noteFilter) ==
            Candidates(strings[..k], minFret, maxFret, hideSemitones, noteFilter)
            + Row(strings[k], minFret, maxFret + 1, hideSemitones, noteFilter)
  {
    assert strings[..k + 1][..k] == strings[..k];
  }

  lemma {:induction false} RowMembership(s: int, lo: int, hi: int, hideSemitones: bool,
                                         noteFilter: seq<int>, p: Position)
    requires IsStringIndex(s) && 0 <= lo
    ensures p in Row(s, lo, hi, hideSemitones, noteFilter) <==>
      && p.stringIndex == s
      && lo <= p.fret < hi
      && p.noteIndex == PitchClassAt(s, p.fret)
      && Admits(hideSemitones, noteFilter, p.noteIndex)
    decreases hi - lo
  {
    if hi > lo {
      var front, cell := Row(s, lo, hi - 1, hideSemitones, noteFilter), Cell(s, hi - 1, hideSemitones, noteFilter);
      assert p in front + cell <==> p in front || p in cell;
      RowMembership(s, lo, hi - 1, hideSemitones, noteFilter, p);
      CellMembership(s, hi - 1, hideSemitones, noteFilter, p);
    }
  }

  lemma CellMembership(s: int, fret: int, hideSemitones: bool, noteFilter: seq<int>, p: Position)
    requires IsStringIndex(s) && 0 <= fret
    ensures p in Cell(s, fret, hideSemitones, noteFilter) <==>
      && p == Position(s, fret, PitchClassAt(s, fret))
      && Admits(hideSemitones, noteFilter, p.noteIndex)
  {
  }

  /** Soundness and completeness of the enumeration: a position is collected
      exactly when it meets every constraint of the active filters. */
  lemma {:induction false} CandidatesMembership(strings: seq<int>, minFret: int, maxFret: int,
                                                hideSemitones: bool, noteFilter: seq<int>, p: Position)
    requires ValidStrings(strings) && 0 <= minFret
    ensures p in Candidates(strings, minFret, maxFret, hideSemitones, noteFilter) <==>
            IsCandidate(strings, minFret, maxFret, hideSemitones, noteFilter, p)
  {
    if strings != [] {
      var init, last := strings[..|strings| - 1], strings[|strings| - 1];
      assert strings == init + [last];
      assert p.stringIndex in strings <==> p.stringIndex in init || p.stringIndex == last;
      var front := Candidates(init, minFret, maxFret, hideSemitones, noteFilter);
      var row := Row(last, minFret, maxFret + 1, hideSemitones, noteFilter);
      assert p in front + row <==> p in front || p in row;
      CandidatesMembership(init, minFret, maxFret, hideSemitones, noteFilter, p);
      RowMembership(last, minFret, maxFret + 1, hideSemitones, noteFilter, p);
    }
  }

  lemma CandidatesExact(strings: seq<int>, minFret: int, maxFret: int,
                         hideSemitones: bool, noteFilter: seq<int>)
    requires ValidStrings(strings) && 0 <= minFret
    ensures forall p :: p in Candidates(strings, minFret, maxFret, hideSemitones, noteFilter) <==>
                        IsCandidate(strings, minFret, maxFret, hideSemitones, noteFilter, p)
  {
    forall p {
      CandidatesMembership(strings, minFret, maxFret, hideSemitones, noteFilter, p);
    }
  }

  lemma NoDuplicatesConcat<T>(a: seq<T>, b: seq<T>)
    requires forall i, j :: 0 <= i < j < |a| ==> a[i] != a[j]
    requires forall i, j :: 0 <= i < j < |b| ==> b[i] != b[j]
    requires forall x :: x in a ==> x !in b
    ensures forall i, j :: 0 <= i < j < |a + b| ==> (a + b)[i] != (a + b)[j]
  {
    forall i, j | 0 <= i < j < |a + b| ensures (a + b)[i] != (a + b)[j] {
      if j < |a| {
      } else if i >= |a| {
        assert (a + b)[i] == b[i - |a|] && (a + b)[j] == b[j - |a|];
      } else {
        assert (a + b)[i] == a[i] && (a + b)[j] == b[j - |a|];
        assert a[i] in a;
      }
    }
  }

  predicate Distinct(ps: seq<Position>) {
    forall i, j :: 0 <= i < j < |ps| ==> ps[i] != ps[j]
  }

  lemma {:induction false} RowDistinct(s: int, lo: int, hi: int, hideSemitones: bool, noteFilter: seq<int>)
    requires IsStringIndex(s) && 0 <= lo
    ensures Distinct(Row(s, lo, hi, hideSemitones, noteFilter))
    decreases hi - lo
  {
    if hi > lo {
      var front := Row(s, lo, hi - 1, hideSemitones, noteFilter);
      RowDistinct(s, lo, hi - 1, hideSemitones, noteFilter);
      forall p | p in front ensures p !in Cell(s, hi - 1, hideSemitones, noteFilter) {
        RowMembership(s, lo, hi - 1, hideSemitones, noteFilter, p);
      }
      NoDuplicatesConcat(front, Cell(s, hi - 1, hideSemitones, noteFilter));
    }
  }

  /** With no string tested twice, no position is collected twice, so a
      uniform pick over the list is a uniform pick over the positions. */
  lemma {:induction false} CandidatesDistinct(strings: seq<int>, minFret: int, maxFret: int,
                                              hideSemitones: bool, noteFilter: seq<int>)
    requires ValidStrings(strings) && 0 <= minFret
    requires NoDuplicates(strings)
    ensures Distinct(Candidates(strings, minFret, maxFret, hideSemitones, noteFilter))
  {
    if strings != [] {
      var init, last := strings[..|strings| - 1], strings[|strings| - 1];
      assert NoDuplicates(init);
      assert last !in init;
      var front := Candidates(init, minFret, maxFret, hideSemitones, noteFilter);
      var row := Row(last, minFret, maxFret + 1, hideSemitones, noteFilter);
      CandidatesDistinct(init, minFret, maxFret, hideSemitones, noteFilter);
      RowDistinct(last, minFret, maxFret + 1, hideSemitones, noteFilter);
      forall p | p in front ensures p !in row {
        CandidatesMembership(init, minFret, maxFret, hideSemitones, noteFilter, p);
        RowMembership(last, minFret, maxFret + 1, hideSemitones, noteFilter, p);
      }
      NoDuplicatesConcat(front, row);
    }
  }

  lemma {:induction false} RowCount(s: int, lo: int, hi: int)
    requires IsStringIndex(s) && 0 <= lo <= hi
    ensures |Row(s, lo, hi, false, [])| == hi - lo
    decreases hi - lo
  {
    if hi > lo {
      RowCount(s, lo, hi - 1);
    }
  }

  /** Without filters every (string, fret) pair is a candidate: six strings
      over frets 0-12 give 78 positions. */
  lemma {:induction false} CandidatesCount(strings: seq<int>, minFret: int, maxFret: int)
    requires ValidStrings(strings) && 0 <= minFret <= maxFret + 1
    ensures |Candidates(strings, minFret, maxFret, false, [])| == |strings| * (maxFret - minFret + 1)
  {
    if strings != [] {
      var init, width := strings[..|strings| - 1], maxFret - minFret + 1;
      CandidatesCount(init, minFret, maxFret);
      RowCount(strings[|strings| - 1], minFret, maxFret + 1);
      assert (|init| + 1) * width == |init| * width + width;
      assert |strings| == |init| + 1;
    }
  }

  /** With no string selected, the '1-12' range and no filter, all six
      strings times frets 0-12 are eligible: 78 positions. */
  lemma LowRangeAllStringsCount()
    ensures |Candidates(TestedStrings([]), FretBounds("1-12").0, FretBounds("1-12").1, false, [])| == 78
  {
    CandidatesCount(TestedStrings([]), 0, 12);
  }

  /** "Hide semitones" with the allow-list C, E admits exactly C and E. */
  lemma NaturalAllowListExample(pc: int)
    requires IsPitchClass(pc)
    ensures Admits(true, [0, 4], pc) <==> pc == 0 || pc == 4
  {
  }

  /** Because every fret range spans at least twelve frets, every pitch class
      occurs on every tested string; so nothing is collected only when the
      filters admit no pitch class at all. */
  lemma CandidatesEmptyIff(strings: seq<int>, minFret: int, maxFret: int,
                           hideSemitones: bool, noteFilter: seq<int>)
    requires ValidStrings(strings) && strings != []
    requires 0 <= minFret && maxFret - minFret >= 11
    ensures Candidates(strings, minFret, maxFret, hideSemitones, noteFilter) == [] <==>
            forall pc :: IsPitchClass(pc) ==> !Admits(hideSemitones, noteFilter, pc)
  {
    var ps := Candidates(strings, minFret, maxFret, hideSemitones, noteFilter);
    if ps != [] {
      var p := ps[0];
      CandidatesMembership(strings, minFret, maxFret, hideSemitones, noteFilter, p);
      assert IsPitchClass(p.noteIndex) && Admits(hideSemitones, noteFilter, p.noteIndex);
    }
    if pc :| IsPitchClass(pc) && Admits(hideSemitones, noteFilter, pc) {
      var s := strings[0];
      var f := FretOf(s, minFret, pc);
      CandidatesMembership(strings, minFret, maxFret, hideSemitones, noteFilter, Position(s, f, pc));
      assert Position(s, f, pc) in ps;
    }
  }

  /** The allow-list the note-filter buttons can build holds natural pitch
      classes only; under it the "no matching note" branch is never taken. */
  lemma NaturalFilterAlwaysMatches(selected: seq<int>, range: string,
                                   hideSemitones: bool, noteFilter: seq<int>)
    requires ValidSelection(selected)
    requires forall x :: x in noteFilter ==> IsNatural(x)
    ensures Candidates(TestedStrings(selected), FretBounds(range).0, FretBounds(range).1,
                       hideSemitones, noteFilter) != []
  {
    var pc := if |noteFilter| > 0 then noteFilter[0] else 0;
    assert Admits(hideSemitones, noteFilter, pc);
    var strings, bounds := TestedStrings(selected), FretBounds(range);
    var f := FretOf(strings[0], bounds.0, pc);
    CandidatesMembership(strings, bounds.0, bounds.1, hideSemitones, noteFilter, Position(strings[0], f, pc));
  }

  /** An allow-list of sharps only, with semitones hidden, admits nothing:
      the kind of setting that reaches the empty branch. */
  lemma SharpOnlyFilterMatchesNothing(selected: seq<int>, range: string)
    requires ValidSelection(selected)
    ensures Candidates(TestedStrings(selected), FretBounds(range).0, FretBounds(range).1, true, [1]) == []
  {
    CandidatesEmptyIff(TestedStrings(selected), FretBounds(range).0, FretBounds(range).1, true, [1]);
  }

  /** The inner loop of lines 270-279: push, onto `possiblePositions`,
      every admitted position of string `str` from `minFret` to `maxFret`. */
  method CollectOnString(possiblePositions: seq<Position>, str: int, minFret: int, maxFret: int,
                         hideSemitones: bool, noteFilter: seq<int>)
    returns (extended: seq<Position>)
    requires IsStringIndex(str) && 0 <= minFret <= maxFret + 1
    ensures extended == possiblePositions + Row(str, minFret, maxFret + 1, hideSemitones, noteFilter)
  {
    extended := possiblePositions;
    ghost var row := [];
    for fret := minFret to maxFret + 1
      invariant row == Row(str, minFret, fret, hideSemitones, noteFilter)
      invariant extended == possiblePositions + row
    {
      var noteIndex := PitchClassAt(str, fret);
      RowStep(str, minFret, fret, hideSemitones, noteFilter);
      if hideSemitones && !IsNatural(noteIndex) {
        continue;
      }
      if |noteFilter| > 0 && noteIndex !in noteFilter {
        continue;
      }
      assert (possiblePositions + row) + [Position(str, fret, noteIndex)]
          == possiblePositions + (row + [Position(str, fret, noteIndex)]);
      extended := extended + [Position(str, fret, noteIndex)];
      row := row + [Position(str, fret, noteIndex)];
    }
  }

  /** Lines 261-280: collect every admitted position of the tested strings
      and the fret range, strings in the order of `stringsToTest`, frets
      ascending. */
  method CollectPositions(selectedStrings: seq<int>, quizFretRange: string,
                          hideSemitones: bool, noteFilter: seq<int>)
    returns (possiblePositions: seq<Position>)
    requires ValidSelection(selectedStrings)
    ensures possiblePositions == Candidates(TestedStrings(selectedStrings), FretBounds(quizFretRange).0,
                                            FretBounds(quizFretRange).1, hideSemitones, noteFilter)
    ensures forall p :: p in possiblePositions <==>
      IsCandidate(TestedStrings(selectedStrings), FretBounds(quizFretRange).0,
                  FretBounds(quizFretRange).1, hideSemitones, noteFilter, p)
  {
    possiblePositions := [];
    var stringsToTest := TestedStrings(selectedStrings);
    var bounds := FretBounds(quizFretRange);
    var minFret, maxFret := bounds.0, bounds.1;
    for k := 0 to |stringsToTest|
      invariant possiblePositions == Candidates(stringsToTest[..k], minFret, maxFret, hideSemitones, noteFilter)
    {
      CandidatesStep(stringsToTest, k, minFret, maxFret, hideSemitones, noteFilter);
      possiblePositions := CollectOnString(possiblePositions, stringsToTest[k], minFret, maxFret,
                                           hideSemitones, noteFilter);
    }
    assert stringsToTest[..|stringsToTest|] == stringsToTest;
    CandidatesExact(stringsToTest, minFret, maxFret, hideSemitones, noteFilter);
  }

  /** `Math.floor(u * n)` for a draw `u` of `Math.random()`. */
  function PickIndex(u: real, n: int): (i: int)
    requires 0.0 <= u < 1.0 && n > 0
    ensures 0 <= i < n
  {
    assert u * n as real < n as real;
    (u * n as real).Floor
  }

  /** Every index can be drawn, so every eligible target can be asked. */
  lemma PickIndexReaches(n: int, i: int)
    requires 0 <= i < n
    ensures 0.0 <= i as real / n as real < 1.0
    ensures PickIndex(i as real / n as real, n) == i
  {
    assert (i as real / n as real) * n as real == i as real;
  }

  /** The fretboard target chosen by lines 282-291: nothing when no position
      is eligible, else the entry of `possiblePositions` at the drawn index. */
  function NextTarget(selectedStrings: seq<int>, quizFretRange: string, hideSemitones: bool,
                      noteFilter: seq<int>, u: real): (target: Option<Position>)
    requires ValidSelection(selectedStrings) && 0.0 <= u < 1.0
    ensures target.Some? ==>
      IsCandidate(TestedStrings(selectedStrings), FretBounds(quizFretRange).0,
                  FretBounds(quizFretRange).1, hideSemitones, noteFilter, target.value)
    ensures target.None? <==> forall pc :: IsPitchClass(pc) ==> !Admits(hideSemitones, noteFilter, pc)
  {
    var strings := TestedStrings(selectedStrings);
    var (minFret, maxFret) := FretBounds(quizFretRange);
    var ps := Candidates(strings, minFret, maxFret, hideSemitones, noteFilter);
    CandidatesEmptyIff(strings, minFret, maxFret, hideSemitones, noteFilter);
    if |ps| == 0 then None
    else
      var p := ps[PickIndex(u, |ps|)];
      CandidatesMembership(strings, minFret, maxFret, hideSemitones, noteFilter, p);
      Some(p)
  }

  /** Every eligible position can be drawn as the fretboard target. */
  lemma NextTargetReaches(selectedStrings: seq<int>, quizFretRange: string, hideSemitones: bool,
                          noteFilter: seq<int>, p: Position)
    requires ValidSelection(selectedStrings)
    requires IsCandidate(TestedStrings(selectedStrings), FretBounds(quizFretRange).0,
                         FretBounds(quizFretRange).1, hideSemitones, noteFilter, p)
    ensures exists u :: 0.0 <= u < 1.0 && NextTarget(selectedStrings, quizFretRange, hideSemitones, noteFilter, u) == Some(p)
  {
    var strings := TestedStrings(selectedStrings);
    var (minFret, maxFret) := FretBounds(quizFretRange);
    var ps := Candidates(strings, minFret, maxFret, hideSemitones, noteFilter);
    CandidatesMembership(strings, minFret, maxFret, hideSemitones, noteFilter, p);
    var i :| 0 <= i < |ps| && ps[i] == p;
    PickIndexReaches(|ps|, i);
    var u := i as real / |ps| as real;
    assert NextTarget(selectedStrings, quizFretRange, hideSemitones, noteFilter, u) == Some(p);
  }

  /** `fretViewStart` for a target fret (line 293): the window of twelve
      frets that is shown always contains the target. */
  function ViewStart(fret: int): (start: int)
    ensures start == 0 || start == 12
    ensures 0 <= fret <= FRET_COUNT ==> start <= fret <= start + DISPLAY_FRET_COUNT
  {
    if fret > 12 then 12 else 0
  }

  /** The solfège target of lines 313-318. */
  function SolfegeTarget(hideSemitones: bool, u: real): (noteIndex: int)
    requires 0.0 <= u < 1.0
    ensures IsPitchClass(noteIndex)
    ensures hideSemitones ==> IsNatural(noteIndex)
  {
    if hideSemitones then NATURAL_INDICES[PickIndex(u, |NATURAL_INDICES|)]
    else PickIndex(u, 12)
  }

  /** The other naming system. */
  function Opposite(system: NameSystem): NameSystem {
    if system == English then Solfege else English
  }

  /** The solfège quiz's prompt (lines 320-326): the target spelled in the
      system opposite to the one the answer buttons use. */
  function SolfegePrompt(system: NameSystem, noteIndex: int): (prompt: string)
    requires IsPitchClass(noteIndex)
    ensures |prompt| > 0
    ensures forall j :: IsPitchClass(j) ==> prompt != NoteName(system, j)
  {
    NoteName(Opposite(system), noteIndex)
  }

  /** The prompt names exactly one pitch class, so it determines the answer. */
  lemma SolfegePromptDeterminesAnswer(system: NameSystem, i: int, j: int)
    requires IsPitchClass(i) && IsPitchClass(j)
    ensures SolfegePrompt(system, i) == SolfegePrompt(system, j) <==> i == j
  {
    if i != j {
      NoteNamesDistinct(Opposite(system), i, j);
    }
  }

  /** Conversely, every pitch class the setting allows can be drawn. */
  lemma SolfegeTargetReaches(hideSemitones: bool, pc: int)
    requires IsPitchClass(pc) && (hideSemitones ==> IsNatural(pc))
    ensures exists u :: 0.0 <= u < 1.0 && SolfegeTarget(hideSemitones, u) == pc
  {
    if hideSemitones {
      var k :| 0 <= k < |NATURAL_INDICES| && NATURAL_INDICES[k] == pc;
      PickIndexReaches(|NATURAL_INDICES|, k);
      assert SolfegeTarget(hideSemitones, k as real / 7.0) == pc;
    } else {
      PickIndexReaches(12, pc);
      assert SolfegeTarget(hideSemitones, pc as real / 12.0) == pc;
    }
  }
}
