/**
 * `convertFreqToString` and the `NoteData` record: from the signed number of
 * semitones between a frequency and the reference A4, the name of the nearest
 * note, whether it is the sharp of that name, and how many cents the frequency
 * lies above (positive) or below (negative) that note.
 *
 * The semitone count itself, `12 * log10(freq / refA4) / log10(2)`, is float
 * work on logarithms; it is the input `semitones` here.
 */
module NoteMapping {
  import opened Common

  /** `NoteData`: a note name, the cents off that note, and the sharp flag. */
  datatype NoteData = NoteData(noteName: string, cents: real, sharp: bool)

  /** `NoteData(name, cents, sharp = false)`: the flag defaults to false. */
  function MakeNoteData(name: string, cents: real, sharp: bool := false): (n: NoteData)
    ensures n.noteName == name && n.cents == cents && n.sharp == sharp
  {
    NoteData(name, cents, sharp)
  }

  /**
   * `NoteData()`: the name "-" and 0 cents.  The sharp flag is left
   * uninitialised, so it is whatever `unspecified` says.
   */
  function DefaultNoteData(unspecified: bool): (n: NoteData)
    ensures n.noteName == "-" && n.cents == 0.0
  {
    NoteData("-", 0.0, unspecified)
  }

  /** A record made with the flag left out is not sharp. */
  lemma SharpDefaultsToFalse(name: string, cents: real)
    ensures !MakeNoteData(name, cents).sharp
  {
  }

  /** `roundf`: the nearest integer, halves rounded away from zero. */
  function RoundHalfAwayFromZero(x: real): (r: int)
    ensures -0.5 <= x - r as real <= 0.5
    ensures x - r as real == 0.5 ==> x < 0.0
    ensures x - r as real == -0.5 ==> x > 0.0
  {
    if x >= 0.0 then (x + 0.5).Floor else -((-x + 0.5).Floor)
  }

  /** The rounding is unique: any integer within half a unit, ties broken away from zero, is it. */
  lemma RoundIsNearest(x: real, n: int)
    requires -0.5 <= x - n as real <= 0.5
    requires x - n as real == 0.5 ==> x < 0.0
    requires x - n as real == -0.5 ==> x > 0.0
    ensures RoundHalfAwayFromZero(x) == n
  {
  }

  /** Shifting by a whole number of units shifts the rounding by the same amount, when the sign stays. */
  lemma RoundShift(x: real, k: int)
    requires x >= 0.0 <==> x + k as real >= 0.0
    ensures RoundHalfAwayFromZero(x + k as real) == RoundHalfAwayFromZero(x) + k
  {
    RoundIsNearest(x + k as real, RoundHalfAwayFromZero(x) + k);
  }

  /**
   * The `switch` on `numSemitonesFromRef_round % 12`: the note of a C++
   * remainder, counted in semitones from A, negative residues counted down.
   * Anything outside [-11, 11] takes the `default` branch and gives "#".
   */
  function NoteForResidue(r: int): (note: (string, bool))
    ensures note.0 in {"A", "B", "C", "D", "E", "F", "G", "#"}
    ensures note.0 == "#" <==> r < -11 || r > 11
    ensures note.0 == "#" ==> !note.1
  {
    if r == 0 then ("A", false)
    else if r == -11 || r == 1 then ("A", true)
    else if r == -10 || r == 2 then ("B", false)
    else if r == -9 || r == 3 then ("C", false)
    else if r == -8 || r == 4 then ("C", true)
    else if r == -7 || r == 5 then ("D", false)
    else if r == -6 || r == 6 then ("D", true)
    else if r == -5 || r == 7 then ("E", false)
    else if r == -4 || r == 8 then ("F", false)
    else if r == -3 || r == 9 then ("F", true)
    else if r == -2 || r == 10 then ("G", false)
    else if r == -1 || r == 11 then ("G", true)
    else ("#", false)
  }

  /** The cents between the semitone count and its nearest whole semitone. */
  function CentsFromNote(semitones: real): (c: real)
    ensures -50.0 <= c <= 50.0
  {
    100.0 * (semitones - RoundHalfAwayFromZero(semitones) as real)
  }

  /**
   * `convertFreqToString(freq, refA4)`, with the semitone count computed from
   * them given as `semitones`: a frequency of exactly 0 gives an empty name,
   * 0 cents and no sharp; otherwise the note of the rounded semitone count,
   * with the cents left over.
   */
  function ConvertFreqToString(freq: real, semitones: real): (n: NoteData)
    ensures freq == 0.0 ==> n == NoteData("", 0.0, false)
    ensures freq != 0.0 ==>
              (n.noteName, n.sharp) == NoteForResidue(CppRem(RoundHalfAwayFromZero(semitones), 12))
              && n.cents == CentsFromNote(semitones)
  {
    if freq == 0.0 then MakeNoteData("", 0.0)
    else
      var rounded := RoundHalfAwayFromZero(semitones);
      var cents := 100.0 * (semitones - rounded as real);
      var (name, sharp) := NoteForResidue(CppRem(rounded, 12));
      MakeNoteData(name, cents, sharp)
  }

  /** Every C++ remainder by 12 has its own case: the `default` name "#" never comes out. */
  lemma DefaultUnreachable(freq: real, semitones: real)
    ensures ConvertFreqToString(freq, semitones).noteName != "#"
  {
    var r := CppRem(RoundHalfAwayFromZero(semitones), 12);
    assert -12 < r < 12;
  }

  /** A residue and the same residue counted down from the next A name the same note. */
  lemma {:induction false} ResiduesAgree(r: int)
    requires 1 <= r <= 11
    ensures NoteForResidue(r) == NoteForResidue(r - 12)
  {
  }

  /** The sharp flag is set exactly for residues 1, 4, 6, 9 and 11 (and their negatives counted down). */
  lemma SharpResidues(r: int)
    requires -11 <= r <= 11
    ensures NoteForResidue(r).1 <==> r in {1, 4, 6, 9, 11, -11, -8, -6, -3, -1}
    ensures NoteForResidue(r).1 ==> NoteForResidue(r).0 in {"A", "C", "D", "F", "G"}
  {
  }

  /**
   * A note an octave up or down has the same name, sharp flag and cents, as
   * long as the semitone count keeps its sign (C++ `%` follows the sign).
   */
  lemma OctaveInvariant(freq: real, semitones: real, k: int)
    requires freq != 0.0
    requires semitones >= 0.0 <==> semitones + 12.0 * k as real >= 0.0
    ensures ConvertFreqToString(freq, semitones + 12.0 * k as real) == ConvertFreqToString(freq, semitones)
  {
    var n := RoundHalfAwayFromZero(semitones);
    RoundShift(semitones, 12 * k);
    assert RoundHalfAwayFromZero(semitones + 12.0 * k as real) == n + 12 * k;
    NoteIsPeriodic(n, k);
  }

  /** Two counts a whole number of octaves apart have C++ remainders equal or 12 apart. */
  lemma RemainderShift(n: int, k: int)
    ensures var d := CppRem(n + 12 * k, 12) - CppRem(n, 12); d == -12 || d == 0 || d == 12
  {
    var q1 := if n >= 0 then n / 12 else -((-n) / 12);
    var q2 := if n + 12 * k >= 0 then (n + 12 * k) / 12 else -((-(n + 12 * k)) / 12);
    assert CppRem(n, 12) == n - 12 * q1;
    assert CppRem(n + 12 * k, 12) == n + 12 * k - 12 * q2;
    var j := k + q1 - q2;
    assert CppRem(n + 12 * k, 12) - CppRem(n, 12) == 12 * j;
  }

  /** Counts a whole number of octaves apart name the same note. */
  lemma {:induction false} NoteIsPeriodic(n: int, k: int)
    ensures NoteForResidue(CppRem(n + 12 * k, 12)) == NoteForResidue(CppRem(n, 12))
  {
    RemainderShift(n, k);
    var a := CppRem(n, 12);
    var b := CppRem(n + 12 * k, 12);
    if b == a + 12 {
      ResiduesAgree(b);
    } else if b == a - 12 {
      ResiduesAgree(a);
    }
  }

  /** Cents reach both ends of the range: exactly between two notes gives -50 above and +50 below. */
  lemma CentsReachBothEnds()
    ensures CentsFromNote(0.5) == -50.0
    ensures CentsFromNote(-0.5) == 50.0
  {
    RoundIsNearest(0.5, 1);
    RoundIsNearest(-0.5, -1);
  }

  /** At the reference itself (0 semitones) the note is A, in tune, not sharp. */
  lemma ReferenceIsA(freq: real)
    requires freq != 0.0
    ensures ConvertFreqToString(freq, 0.0) == NoteData("A", 0.0, false)
  {
    RoundIsNearest(0.0, 0);
  }
}
