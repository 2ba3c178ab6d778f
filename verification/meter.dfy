/**
 * The tuner meter: a row of `2 * numMeterRectsPerSide + 1` rectangles, each
 * with a status that is 1 when the rectangle is lit and 0 when it is dark.
 * In chromatic mode one rectangle shows how far the note is off; in strobe
 * mode the lit pattern rotates one place at a time.
 */
module Meter {

  /** `juce::Rectangle<int>`: position and size; a default-constructed one is all zeros. */
  datatype Rect = Rect(x: int, y: int, width: int, height: int)

  /** `numMeterRectsPerSide`. */
  const NumMeterRectsPerSide := 5
  /** The meter's length: five rectangles each side of the centre one. */
  const MeterSize := 2 * NumMeterRectsPerSide + 1
  /** The index of the centre (in-tune) rectangle. */
  const Centre := NumMeterRectsPerSide

  /** `std::vector::resize(n, fill)`: the first `n` elements kept, then `fill` up to length `n`. */
  function Resized<T>(s: seq<T>, n: nat, fill: T): (r: seq<T>)
    ensures |r| == n
    ensures forall k :: 0 <= k < n && k < |s| ==> r[k] == s[k]
    ensures forall k :: |s| <= k < n ==> r[k] == fill
  {
    if n <= |s| then s[..n] else s + seq(n - |s|, _ => fill)
  }

  /** A status row of `n` dark rectangles. */
  function Dark(n: nat): (s: seq<int>)
    ensures |s| == n && forall k :: 0 <= k < n ==> s[k] == 0
  {
    seq(n, _ => 0)
  }

  /** How many rectangles of a status row are lit. */
  function LitCount(s: seq<int>): nat
  {
    multiset(s)[1]
  }

  /** A dark row has nothing lit. */
  lemma {:induction false} DarkHasNoneLit(n: nat)
    ensures LitCount(Dark(n)) == 0
  {
    if n > 0 {
      DarkHasNoneLit(n - 1);
      assert Dark(n) == Dark(n - 1) + [0];
    }
  }

  /** Lighting one dark rectangle adds one to the lit count. */
  lemma LightOne(s: seq<int>, k: int)
    requires 0 <= k < |s| && s[k] == 0
    ensures LitCount(s[k := 1]) == LitCount(s) + 1
  {
    assert s == s[..k] + [s[k]] + s[k + 1..];
    assert s[k := 1] == s[..k] + [1] + s[k + 1..];
  }

  /**
   * `std::rotate(begin, begin + 1, end)`, the clockwise strobe step: every
   * status moves one place to the left and the first wraps round to the end.
   */
  function RotateLeft(s: seq<int>): (r: seq<int>)
    requires |s| > 0
    ensures |r| == |s|
  {
    s[1..] + [s[0]]
  }

  /**
   * `std::rotate(rbegin, rbegin + 1, rend)`, the counter-clockwise strobe
   * step: every status moves one place to the right and the last wraps round
   * to the front.
   */
  function RotateRight(s: seq<int>): (r: seq<int>)
    requires |s| > 0
    ensures |r| == |s|
  {
    [s[|s| - 1]] + s[..|s| - 1]
  }

  /** The two rotations undo each other. */
  lemma RotationsAreInverse(s: seq<int>)
    requires |s| > 0
    ensures RotateLeft(RotateRight(s)) == s
    ensures RotateRight(RotateLeft(s)) == s
  {
    assert RotateRight(s)[1..] == s[..|s| - 1];
    assert s[..|s| - 1] + [s[|s| - 1]] == s;
    assert RotateLeft(s)[..|s| - 1] == s[1..];
  }

  /** A rotation moves statuses about without changing any: the number lit stays the same. */
  lemma RotationsKeepLitCount(s: seq<int>)
    requires |s| > 0
    ensures multiset(RotateLeft(s)) == multiset(s) && LitCount(RotateLeft(s)) == LitCount(s)
    ensures multiset(RotateRight(s)) == multiset(s) && LitCount(RotateRight(s)) == LitCount(s)
  {
    assert s == [s[0]] + s[1..];
    assert s == s[..|s| - 1] + [s[|s| - 1]];
  }

  /**
   * The chromatic meter's rectangle for a cents value: the centre when the
   * cents are within the tolerance; otherwise one step out per 10 cents on the
   * side of the sign, the outermost from 40 cents on.  No rectangle (-1) is
   * possible only for a negative tolerance and 0 cents.
   */
  function LitIndex(cents: real, tol: real): (k: int)
    ensures tol >= 0.0 ==> 0 <= k < MeterSize
    ensures -1 <= k < MeterSize
  {
    if cents <= tol && cents >= -tol then 5
    else if cents > 0.0 then
      if cents >= 40.0 then 10
      else if cents >= 30.0 then 9
      else if cents >= 20.0 then 8
      else if cents >= 10.0 then 7
      else if cents >= tol then 6
      else -1
    else if cents < 0.0 then
      if cents <= -40.0 then 0
      else if cents <= -30.0 then 1
      else if cents <= -20.0 then 2
      else if cents <= -10.0 then 3
      else if cents <= -tol then 4
      else -1
    else -1
  }

  /** A sharper note never lights a rectangle further left. */
  lemma LitIndexMonotone(c1: real, c2: real, tol: real)
    requires tol >= 0.0 && c1 <= c2
    ensures LitIndex(c1, tol) <= LitIndex(c2, tol)
  {
  }

  /** Flat and sharp are mirror images about the centre rectangle. */
  lemma LitIndexMirror(cents: real, tol: real)
    requires tol >= 0.0
    ensures LitIndex(-cents, tol) == MeterSize - 1 - LitIndex(cents, tol)
  {
  }

  /** With the tolerance of 1 cent: the centre exactly within 1 cent, and otherwise a side rectangle per 10 cents. */
  lemma LitIndexBands(cents: real)
    ensures LitIndex(cents, 1.0) == Centre <==> -1.0 <= cents <= 1.0
    ensures 1.0 < cents < 10.0 ==> LitIndex(cents, 1.0) == 6
    ensures 10.0 <= cents < 20.0 ==> LitIndex(cents, 1.0) == 7
    ensures 20.0 <= cents < 30.0 ==> LitIndex(cents, 1.0) == 8
    ensures 30.0 <= cents < 40.0 ==> LitIndex(cents, 1.0) == 9
    ensures cents >= 40.0 ==> LitIndex(cents, 1.0) == 10
    ensures -10.0 < cents < -1.0 ==> LitIndex(cents, 1.0) == 4
    ensures -20.0 < cents <= -10.0 ==> LitIndex(cents, 1.0) == 3
    ensures -30.0 < cents <= -20.0 ==> LitIndex(cents, 1.0) == 2
    ensures -40.0 < cents <= -30.0 ==> LitIndex(cents, 1.0) == 1
    ensures cents <= -40.0 ==> LitIndex(cents, 1.0) == 0
  {
  }

  /** A status row with only rectangle `k` lit. */
  function OneLit(n: nat, k: int): (s: seq<int>)
    requires 0 <= k < n
    ensures |s| == n && LitCount(s) == 1
    ensures s[k] == 1 && forall j :: 0 <= j < n && j != k ==> s[j] == 0
  {
    DarkHasNoneLit(n);
    LightOne(Dark(n), k);
    Dark(n)[k := 1]
  }

  /** The strobe pattern after a reset: the two rectangles beside the centre lit. */
  function StrobeStart(): (s: seq<int>)
    ensures |s| == MeterSize && LitCount(s) == 2
    ensures forall k :: 0 <= k < MeterSize ==> (s[k] == 1 <==> k == Centre - 1 || k == Centre + 1)
  {
    DarkHasNoneLit(MeterSize);
    LightOne(Dark(MeterSize), Centre - 1);
    LightOne(Dark(MeterSize)[Centre - 1 := 1], Centre + 1);
    Dark(MeterSize)[Centre - 1 := 1][Centre + 1 := 1]
  }

  /** `MeterRectangles`: the rectangles and their statuses, kept the same length by `resize`. */
  class MeterRectangles {
    var rectangles: seq<Rect>
    var rectangleStatus: seq<int>

    constructor ()
      ensures rectangles == [] && rectangleStatus == []
    {
      rectangles := [];
      rectangleStatus := [];
    }

    /**
     * `resize(newSize)`: both vectors get length `newSize` (rectangles kept,
     * new ones all zeros) and then every status is set to 0 in turn.
     */
    method Resize(newSize: nat)
      modifies this
      ensures rectangles == Resized(old(rectangles), newSize, Rect(0, 0, 0, 0))
      ensures rectangleStatus == Dark(newSize)
    {
      rectangles := Resized(rectangles, newSize, Rect(0, 0, 0, 0));
      rectangleStatus := Resized(rectangleStatus, newSize, 0);
      var i := 0;
      while i < newSize
        invariant 0 <= i <= newSize && |rectangleStatus| == newSize
        invariant rectangles == Resized(old(rectangles), newSize, Rect(0, 0, 0, 0))
        invariant forall k :: 0 <= k < i ==> rectangleStatus[k] == 0
      {
        rectangleStatus := rectangleStatus[i := 0];
        i := i + 1;
      }
    }

    /** `size()`: the number of rectangles, never negative. */
    function Size(): (n: int)
      reads this
      ensures n >= 0 && n == |rectangles|
    {
      |rectangles|
    }

    /** The loop `for (int& status : rectangleStatus) status = 0;`. */
    method ClearStatus()
      modifies this
      ensures rectangles == old(rectangles)
      ensures rectangleStatus == Dark(|old(rectangleStatus)|)
    {
      var i := 0;
      while i < |rectangleStatus|
        invariant 0 <= i <= |rectangleStatus| == |old(rectangleStatus)|
        invariant rectangles == old(rectangles)
        invariant forall k :: 0 <= k < i ==> rectangleStatus[k] == 0
      {
        rectangleStatus := rectangleStatus[i := 0];
        i := i + 1;
      }
    }
  }
}
