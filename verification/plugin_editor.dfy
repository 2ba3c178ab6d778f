/**
 * The state the tuner editor keeps between timer ticks: the meter's statuses,
 * the meter mode with its two toggle buttons, the strobe frame counter and the
 * reference frequency with its -/+ buttons.  Drawing and layout are not part
 * of this model; only what they leave in these fields is.
 */
module Editor {
  import opened Common
  import opened Meter
  import opened NoteMapping

  /** `enum MeterMode`. */
  datatype MeterMode = Chromatic | Strobe

  /** The reference button pressed. */
  datatype RefClick = MinusClick | PlusClick

  /** The lowest and highest reference the -/+ buttons allow, and the initial one. */
  const MinReference := 430
  const MaxReference := 450
  const InitialReference := 440

  /** The statuses `setMeterRectangleStatus` leaves in chromatic mode: all dark, then the rectangle for the cents lit. */
  function ChromaticStatus(cents: real, tol: real): (s: seq<int>)
    ensures |s| == MeterSize
    ensures tol >= 0.0 ==> LitCount(s) == 1 && s[LitIndex(cents, tol)] == 1
  {
    var k := LitIndex(cents, tol);
    if k < 0 then Dark(MeterSize) else OneLit(MeterSize, k)
  }

  /** Every meter rectangle but the one for the cents is dark. */
  lemma ChromaticLightsOnlyItsIndex(cents: real, tol: real, j: int)
    requires tol >= 0.0 && 0 <= j < MeterSize && j != LitIndex(cents, tol)
    ensures ChromaticStatus(cents, tol)[j] == 0
  {
  }

  /**
   * One strobe frame: on a frame the counter says to advance, the pattern
   * rotates right when flat beyond the tolerance and left when sharp beyond it;
   * otherwise it stays.  The lit rectangles move but their number never changes.
   */
  function StrobeStatus(s: seq<int>, cents: real, tol: real, counter: int, numFramesUntilAdvance: int): (r: seq<int>)
    requires |s| > 0 && numFramesUntilAdvance != 0
    ensures |r| == |s| && multiset(r) == multiset(s) && LitCount(r) == LitCount(s)
    ensures CppRem(counter, numFramesUntilAdvance) != 0 || -tol <= cents <= tol ==> r == s
  {
    RotationsKeepLitCount(s);
    if CppRem(counter, numFramesUntilAdvance) == 0 then
      if cents < -tol then RotateRight(s)
      else if cents > tol then RotateLeft(s)
      else s
    else s
  }

  /** A flat frame's step and a sharp frame's step undo each other. */
  lemma StrobeStepsUndo(s: seq<int>, c: real, tol: real, counter1: int, counter2: int, n: int)
    requires |s| > 0 && n != 0 && tol >= 0.0 && c > tol
    requires CppRem(counter1, n) == 0 && CppRem(counter2, n) == 0
    ensures StrobeStatus(StrobeStatus(s, c, tol, counter1, n), -c, tol, counter2, n) == s
    ensures StrobeStatus(StrobeStatus(s, -c, tol, counter1, n), c, tol, counter2, n) == s
  {
    RotationsAreInverse(s);
  }

  /** The statuses `resetMeterRectangleStatus` leaves: all dark, or in strobe mode the two beside the centre lit. */
  function ResetStatus(mode: MeterMode): (s: seq<int>)
    ensures |s| == MeterSize
    ensures LitCount(s) == if mode == Strobe then 2 else 0
  {
    DarkHasNoneLit(MeterSize);
    if mode == Strobe then StrobeStart() else Dark(MeterSize)
  }

  /** The -/+ reference buttons: one down while above 430, one up while below 450. */
  function ClickRef(reference: int, click: RefClick): (r: int)
    ensures r == reference || r == reference - 1 || r == reference + 1
    ensures click == MinusClick ==> (r == reference - 1 <==> reference > MinReference) && r <= reference
    ensures click == PlusClick ==> (r == reference + 1 <==> reference < MaxReference) && r >= reference
    ensures MinReference <= reference <= MaxReference ==> MinReference <= r <= MaxReference
  {
    match click
    case MinusClick => if reference > MinReference then reference - 1 else reference
    case PlusClick => if reference < MaxReference then reference + 1 else reference
  }

  /** A run of reference-button clicks, first to last. */
  function ApplyClicks(reference: int, clicks: seq<RefClick>): int
    decreases |clicks|
  {
    if clicks == [] then reference else ApplyClicks(ClickRef(reference, clicks[0]), clicks[1..])
  }

  /** From the initial 440 Hz (or anywhere in range) no run of clicks leaves [430, 450]. */
  lemma {:induction false} ClicksStayInRange(reference: int, clicks: seq<RefClick>)
    requires MinReference <= reference <= MaxReference
    ensures MinReference <= ApplyClicks(reference, clicks) <= MaxReference
    decreases |clicks|
  {
    if clicks != [] {
      ClicksStayInRange(ClickRef(reference, clicks[0]), clicks[1..]);
    }
  }

  /** Each click moves the reference by at most 1 Hz, so a run of clicks moves it by at most its length. */
  lemma {:induction false} ClicksMoveAtMostOnceEach(reference: int, clicks: seq<RefClick>)
    ensures Abs(ApplyClicks(reference, clicks) - reference) <= |clicks|
    decreases |clicks|
  {
    if clicks != [] {
      ClicksMoveAtMostOnceEach(ClickRef(reference, clicks[0]), clicks[1..]);
    }
  }

  /** `SimpleTunerAudioProcessorEditor`, reduced to the state behind the meter and the buttons. */
  class TunerEditor {
    /** `refreshRate`, the timer frequency in Hz. */
    const refreshRate: int
    /** `centTolerance`: how far off, in cents, still counts as in tune. */
    const centTolerance: real
    const meterRectangles: MeterRectangles
    var meterMode: MeterMode
    var strobeFrameCounter: int
    /** `referenceFrequency`: a float that only ever holds whole numbers of Hz. */
    var referenceFrequency: int
    /** The toggle states of the chromatic ("Note") and strobe buttons. */
    var chromaticToggle: bool
    var strobeToggle: bool

    /** The meter has its 11 rectangles, the toggles show the mode and the reference is in range. */
    ghost predicate Valid()
      reads this, meterRectangles
    {
      && |meterRectangles.rectangles| == MeterSize
      && |meterRectangles.rectangleStatus| == MeterSize
      && chromaticToggle == (meterMode == Chromatic)
      && strobeToggle == (meterMode == Strobe)
      && MinReference <= referenceFrequency <= MaxReference
    }

    /**
     * The constructor, followed by the `resized` its `setSize` triggers: 11
     * meter rectangles, chromatic mode, 440 Hz, statuses reset and the toggles
     * set from the mode.
     */
    constructor ()
      ensures Valid() && fresh(meterRectangles)
      ensures refreshRate == 12 && centTolerance == 1.0
      ensures meterMode == Chromatic && chromaticToggle && !strobeToggle
      ensures referenceFrequency == InitialReference
      ensures meterRectangles.Size() == MeterSize
      ensures meterRectangles.rectangleStatus == ResetStatus(Chromatic) && strobeFrameCounter == 0
    {
      refreshRate := 12;
      centTolerance := 1.0;
      meterMode := Chromatic;
      referenceFrequency := InitialReference;
      meterRectangles := new MeterRectangles();
      new;
      meterRectangles.Resize(MeterSize);
      Resized();
    }

    /**
     * What `resized` changes besides geometry: `initializeMeterRectangles`
     * resets the statuses and `initializeModeButtons` sets each toggle from
     * the mode.
     */
    method Resized()
      requires |meterRectangles.rectangles| == MeterSize && |meterRectangles.rectangleStatus| == MeterSize
      requires MinReference <= referenceFrequency <= MaxReference
      modifies this, meterRectangles
      ensures Valid()
      ensures meterMode == old(meterMode) && referenceFrequency == old(referenceFrequency)
      ensures meterRectangles.rectangleStatus == ResetStatus(meterMode) && strobeFrameCounter == 0
    {
      ResetMeterRectangleStatus();
      InitializeModeButtons();
    }

    /** The toggle part of `initializeModeButtons`: each button on exactly when its mode is the current one. */
    method InitializeModeButtons()
      modifies this
      ensures chromaticToggle == (meterMode == Chromatic) && strobeToggle == (meterMode == Strobe)
      ensures meterMode == old(meterMode) && strobeFrameCounter == old(strobeFrameCounter)
      ensures referenceFrequency == old(referenceFrequency)
    {
      chromaticToggle := meterMode == Chromatic;
      strobeToggle := meterMode == Strobe;
    }

    /**
     * `setMeterRectangleStatus(cents)`.  Chromatic mode: clear the meter and
     * light the rectangle for the cents.  Strobe mode: rotate the pattern on
     * the frames the counter picks, then advance the counter modulo
     * `numFramesUntilAdvance` (C++ `%`, which must not be by 0).
     */
    method SetMeterRectangleStatus(cents: real, numFramesUntilAdvance: int)
      requires Valid()
      requires meterMode == Strobe ==> numFramesUntilAdvance != 0
      modifies this, meterRectangles
      ensures Valid()
      ensures meterMode == old(meterMode) && referenceFrequency == old(referenceFrequency)
      ensures meterRectangles.rectangles == old(meterRectangles.rectangles)
      ensures meterMode == Chromatic ==>
                meterRectangles.rectangleStatus == ChromaticStatus(cents, centTolerance)
                && strobeFrameCounter == old(strobeFrameCounter)
      ensures meterMode == Strobe ==>
                meterRectangles.rectangleStatus ==
                  StrobeStatus(old(meterRectangles.rectangleStatus), cents, centTolerance,
                               old(strobeFrameCounter), numFramesUntilAdvance)
                && strobeFrameCounter == CppRem(old(strobeFrameCounter) + 1, numFramesUntilAdvance)
    {
      if meterMode == Chromatic {
        meterRectangles.ClearStatus();
        var k := LitIndex(cents, centTolerance);
        if k >= 0 {
          meterRectangles.rectangleStatus := meterRectangles.rectangleStatus[k := 1];
        }
      } else {
        if CppRem(strobeFrameCounter, numFramesUntilAdvance) == 0 {
          if cents < -centTolerance {
            meterRectangles.rectangleStatus := RotateRight(meterRectangles.rectangleStatus);
          } else if cents > centTolerance {
            meterRectangles.rectangleStatus := RotateLeft(meterRectangles.rectangleStatus);
          }
        }
        strobeFrameCounter := CppRem(strobeFrameCounter + 1, numFramesUntilAdvance);
      }
    }

    /** `resetMeterRectangleStatus`: clear the meter, light 4 and 6 in strobe mode, restart the counter. */
    method ResetMeterRectangleStatus()
      requires |meterRectangles.rectangleStatus| == MeterSize
      modifies this, meterRectangles
      ensures meterRectangles.rectangleStatus == ResetStatus(meterMode) && strobeFrameCounter == 0
      ensures meterRectangles.rectangles == old(meterRectangles.rectangles)
      ensures meterMode == old(meterMode) && referenceFrequency == old(referenceFrequency)
      ensures chromaticToggle == old(chromaticToggle) && strobeToggle == old(strobeToggle)
    {
      meterRectangles.ClearStatus();
      if meterMode == Strobe {
        meterRectangles.rectangleStatus := meterRectangles.rectangleStatus[Centre - 1 := 1];
        meterRectangles.rectangleStatus := meterRectangles.rectangleStatus[Centre + 1 := 1];
      }
      strobeFrameCounter := 0;
    }

    /**
     * The meter part of `drawNote`: a note with a name sets the meter from its
     * cents; the empty name (no frequency) resets it.
     */
    method ShowNote(note: NoteData, numFramesUntilAdvance: int)
      requires Valid()
      requires meterMode == Strobe ==> numFramesUntilAdvance != 0
      modifies this, meterRectangles
      ensures Valid()
      ensures meterMode == old(meterMode) && referenceFrequency == old(referenceFrequency)
      ensures meterRectangles.rectangles == old(meterRectangles.rectangles)
      ensures note.noteName == "" ==>
                meterRectangles.rectangleStatus == ResetStatus(meterMode) && strobeFrameCounter == 0
      ensures note.noteName != "" && meterMode == Chromatic ==>
                meterRectangles.rectangleStatus == ChromaticStatus(note.cents, centTolerance)
                && strobeFrameCounter == old(strobeFrameCounter)
      ensures note.noteName != "" && meterMode == Strobe ==>
                meterRectangles.rectangleStatus ==
                  StrobeStatus(old(meterRectangles.rectangleStatus), note.cents, centTolerance,
                               old(strobeFrameCounter), numFramesUntilAdvance)
                && strobeFrameCounter == CppRem(old(strobeFrameCounter) + 1, numFramesUntilAdvance)
                && LitCount(meterRectangles.rectangleStatus) == LitCount(old(meterRectangles.rectangleStatus))
    {
      if note.noteName != "" {
        SetMeterRectangleStatus(note.cents, numFramesUntilAdvance);
      } else {
        ResetMeterRectangleStatus();
      }
    }

    /** The chromatic button's `onClick`: that toggle on, the other off, chromatic mode, meter reset. */
    method ChromaticClicked()
      requires Valid()
      modifies this, meterRectangles
      ensures Valid()
      ensures chromaticToggle && !strobeToggle && meterMode == Chromatic
      ensures meterRectangles.rectangleStatus == ResetStatus(Chromatic) && strobeFrameCounter == 0
      ensures referenceFrequency == old(referenceFrequency)
    {
      strobeToggle := false;
      chromaticToggle := true;
      meterMode := Chromatic;
      ResetMeterRectangleStatus();
    }

    /** The strobe button's `onClick`: that toggle on, the other off, strobe mode, meter reset. */
    method StrobeClicked()
      requires Valid()
      modifies this, meterRectangles
      ensures Valid()
      ensures strobeToggle && !chromaticToggle && meterMode == Strobe
      ensures meterRectangles.rectangleStatus == ResetStatus(Strobe) && strobeFrameCounter == 0
      ensures referenceFrequency == old(referenceFrequency)
    {
      strobeToggle := true;
      chromaticToggle := false;
      meterMode := Strobe;
      ResetMeterRectangleStatus();
    }

    /** The - button's `onClick`: one Hz down, unless already at 430. */
    method RefMinusClicked()
      requires Valid()
      modifies this
      ensures Valid()
      ensures referenceFrequency == ClickRef(old(referenceFrequency), MinusClick)
      ensures meterMode == old(meterMode) && strobeFrameCounter == old(strobeFrameCounter)
    {
      if referenceFrequency > MinReference {
        referenceFrequency := referenceFrequency - 1;
      }
    }

    /** The + button's `onClick`: one Hz up, unless already at 450. */
    method RefPlusClicked()
      requires Valid()
      modifies this
      ensures Valid()
      ensures referenceFrequency == ClickRef(old(referenceFrequency), PlusClick)
      ensures meterMode == old(meterMode) && strobeFrameCounter == old(strobeFrameCounter)
    {
      if referenceFrequency < MaxReference {
        referenceFrequency := referenceFrequency + 1;
      }
    }
  }

  /** A frequency the detector reports (not 0) always has a note name, so the meter is set rather than reset. */
  lemma DetectedNoteHasName(freq: real, semitones: real)
    requires freq != 0.0
    ensures ConvertFreqToString(freq, semitones).noteName != ""
  {
    var r := CppRem(RoundHalfAwayFromZero(semitones), 12);
    assert -12 < r < 12;
  }
}
