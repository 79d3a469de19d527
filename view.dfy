/** The numeric geometry of the fretboard drawing (`drawFretboard` and
    `createQuestionMarker`, script.js:142-245): which strings are drawn
    active, where fret lines, inlays, fret numbers, open-string labels and
    the "?" marker go. Coordinates are SVG user units, as reals. */
module View {
  import opened Instrument
  import opened Generator
  import opened Quiz

  /** Height of the six strings' area and width of the drawing (lines 146-147). */
  const BOARD_HEIGHT: real := (STRING_COUNT * FRET_HEIGHT) as real
  const TOTAL_WIDTH: real := ((DISPLAY_FRET_COUNT + 1) * FRET_WIDTH) as real

  /** Radius of the question marker's circle (line 239). */
  const MARKER_RADIUS: real := 0.4 * FRET_HEIGHT as real

  /** String `i` is drawn in the active colour (line 187). */
  predicate IsStringActive(selectedStrings: seq<int>, i: int) {
    |selectedStrings| == 0 || i + 1 in selectedStrings
  }

  /** A string is drawn active exactly when questions are asked on it. */
  lemma ActiveStringsAreTested(selectedStrings: seq<int>, i: int)
    requires ValidSelection(selectedStrings) && IsStringIndex(i)
    ensures IsStringActive(selectedStrings, i) <==> i in TestedStrings(selectedStrings)
  {
    TestedStringsMembership(selectedStrings, i);
  }

  /** Vertical position of string `i` (line 184). */
  function StringY(i: int): (y: real)
    requires IsStringIndex(i)
    ensures 0.0 < y < BOARD_HEIGHT
  {
    (i as real + 0.5) * FRET_HEIGHT as real
  }

  /** Horizontal position of the fret line in display column `column`
      (0..DISPLAY_FRET_COUNT), which is fret `fretViewStart + column` (line 154). */
  function FretLineX(column: int): (x: real)
    requires 0 <= column <= DISPLAY_FRET_COUNT
    ensures 0.0 < x < TOTAL_WIDTH
  {
    (column as real + 0.5) * FRET_WIDTH as real
  }

  /** The nut is drawn instead of a fret line where the fret is 0 (line 155). */
  predicate IsNut(fretViewStart: int, column: int) {
    fretViewStart + column == 0
  }

  /** Horizontal position of the fret number of column `column` (line 199).
      The inlay dots of the fret at column `column` go at `FretNumberX(column)`
      for columns 1-12, and at x = 0 for column 0 (line 170). */
  function FretNumberX(column: int): (x: real)
    requires 1 <= column <= DISPLAY_FRET_COUNT
    ensures FretLineX(column - 1) < x < FretLineX(column)
  {
    (column * FRET_WIDTH) as real
  }

  /** Vertical positions of the inlay dots drawn for `fret` (lines 168-181):
      one dot on the marked frets, two on the octave frets 12 and 24. */
  function InlayYs(fret: int): (ys: seq<real>)
    ensures |ys| <= 2
    ensures |ys| > 0 <==> fret in POSITION_MARKERS
    ensures |ys| == 2 <==> fret == 12 || fret == 24
    ensures forall k :: 0 <= k < |ys| ==> 0.0 < ys[k] < BOARD_HEIGHT
  {
    var middle := BOARD_HEIGHT / 2.0;
    if fret !in POSITION_MARKERS || fret == 0 then []
    else if fret == 12 || fret == 24 then [middle - FRET_HEIGHT as real, middle + FRET_HEIGHT as real]
    else [middle]
  }

  /** The question marker is drawn when its fret is inside the window (line 221). */
  predicate MarkerDrawn(targetFret: int, fretViewStart: int) {
    fretViewStart <= targetFret <= fretViewStart + DISPLAY_FRET_COUNT
  }

  /** Centre of the question marker (lines 234-236): an open-string target
      sits left of the nut, any other in the middle of its fret's column. */
  function MarkerX(targetFret: int, fretViewStart: int): real {
    if targetFret == 0 then 0.25 * FRET_WIDTH as real
    else ((targetFret - fretViewStart) * FRET_WIDTH) as real
  }

  function MarkerY(targetString: int): real {
    (targetString as real + 0.5) * FRET_HEIGHT as real
  }

  /** Open-string labels (lines 207-213): shown only with the toggle on and
      the window at the nut, and never on the string whose open note is
      being asked. */
  predicate OpenLabelShown(showOpenStrings: bool, q: Question, i: int) {
    showOpenStrings && q.fretViewStart == 0 && !(q.targetFret == 0 && q.targetString == i)
  }

  const OPEN_LABEL_X: real := 0.25 * FRET_WIDTH as real

  /** The pitch class an open-string label names (line 212). */
  function OpenLabelNote(i: int): (pc: int)
    requires IsStringIndex(i)
    ensures IsPitchClass(pc) && pc == PitchClassAt(i, 0)
  {
    TUNING[i]
  }

  /** Every question the generator can produce is drawn: the marker lies on
      the target's string inside the drawing, in the column of the target's
      fret between that fret's two fret lines and above its fret number, or
      left of the nut for an open string. */
  lemma MarkerPlacement(q: Question)
    requires ValidQuestion(q) && q.targetString != -1
    ensures MarkerDrawn(q.targetFret, q.fretViewStart)
    ensures MarkerY(q.targetString) == StringY(q.targetString)
    ensures 0.0 < MarkerX(q.targetFret, q.fretViewStart) < TOTAL_WIDTH
    ensures q.targetFret == 0 ==>
      && IsNut(q.fretViewStart, 0)
      && MarkerX(q.targetFret, q.fretViewStart) < FretLineX(0)
    ensures q.targetFret > 0 ==>
      var column := q.targetFret - q.fretViewStart;
      && 1 <= column <= DISPLAY_FRET_COUNT
      && MarkerX(q.targetFret, q.fretViewStart) == FretNumberX(column)
      && FretLineX(column - 1) < MarkerX(q.targetFret, q.fretViewStart) < FretLineX(column)
  {
  }

  /** An open-string label never sits under the question marker: on the
      target's own string it is at least a marker radius away from it. */
  lemma OpenLabelClearOfMarker(showOpenStrings: bool, q: Question, i: int)
    requires ValidQuestion(q) && q.targetString != -1 && IsStringIndex(i)
    requires OpenLabelShown(showOpenStrings, q, i)
    ensures q.fretViewStart == 0 && q.targetFret <= DISPLAY_FRET_COUNT
    ensures i == q.targetString ==> MarkerX(q.targetFret, q.fretViewStart) - OPEN_LABEL_X > MARKER_RADIUS
  {
  }

  /** The example of a high-range question: fret 18 opens the window at
      fret 12 and puts the marker in display column 6. */
  lemma HighRangeExample()
    ensures ViewStart(18) == 12
    ensures MarkerX(18, ViewStart(18)) == FretNumberX(6)
  {
  }
}
