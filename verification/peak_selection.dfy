/**
 * Harmonic-aware peak selection over one spectral frame: `findComplexMaxIndex`,
 * `fundamentalFrequencyChecker`, `checkSpecificHarmonic` and the noise gate of
 * `findExactMaxFrequency`.
 *
 * A frame interleaves real and imaginary parts, so bin `b` sits at data
 * indices `2b` and `2b + 1`; every index handled here is such an even data
 * index.  The magnitude of a bin is `std::hypot` of its two parts; the
 * standard library's `hypot` is not part of this model and is the arbitrary
 * non-negative function `Hypot`, so every property below holds whatever it
 * computes.
 */
module PeakSelection {
  import opened Common
  import opened Spectrum

  /** A magnitude: never negative. */
  type Magnitude0 = m: real | m >= 0.0

  /** `std::hypot` (and `hypotf`), left abstract apart from being non-negative. */
  const Hypot: (real, real) -> Magnitude0

  /** The magnitude of the bin whose real part is at data index `k`: never negative. */
  function Magnitude(v: Block, k: int): (m: real)
    requires 0 <= k && k + 1 < |v|
    ensures m >= 0.0
  {
    Hypot(v[k], v[k + 1])
  }

  /** `fftThreshold = 0.001 * masterFFTLength` (-60 dB of full scale). */
  const FftThreshold: real := 0.001 * MasterFftLength as real

  /**
   * The 20 dB test `magI / mag < 10` on non-negative magnitudes: the float
   * quotient is infinite or NaN when `mag` is zero, and the test fails then.
   */
  predicate Within20dB(magI: real, mag: real)
    ensures mag <= 0.0 ==> !Within20dB(magI, mag)
    ensures mag > 0.0 ==> (Within20dB(magI, mag) <==> magI / mag < 10.0)
  {
    if mag > 0.0 then QuotientBelowTen(magI, mag); magI < 10.0 * mag
    else false
  }

  /** For a positive divisor, the quotient is below 10 exactly when the dividend is below 10 times it. */
  lemma QuotientBelowTen(a: real, b: real)
    requires b > 0.0
    ensures a / b < 10.0 <==> a < 10.0 * b
  {
    assert a == (a / b) * b;
  }

  /** `r += (r & 1)`: a non-negative index rounded up to the next even one. */
  function RoundUpEven(q: nat): (r: nat)
    ensures r % 2 == 0 && q <= r <= q + 1
  {
    q + q % 2
  }

  /**
   * C++ `i / h` on a non-negative `i`, for the three harmonic numbers the
   * checker uses (written per divisor so that it stays linear arithmetic).
   */
  function Quot(i: int, h: int): (q: int)
    requires i >= 0 && (h == 3 || h == 5 || h == 6)
    ensures h == 3 ==> 3 * q <= i < 3 * q + 3
    ensures h == 5 ==> 5 * q <= i < 5 * q + 5
    ensures h == 6 ==> 6 * q <= i < 6 * q + 6
  {
    if h == 3 then i / 3 else if h == 5 then i / 5 else i / 6
  }

  /** C++ `i % (2 * h) == 0` on a non-negative `i`: `i` is an even multiple of `h`. */
  predicate ExactMultiple(i: int, h: int)
    requires i >= 0 && (h == 3 || h == 5 || h == 6)
  {
    if h == 3 then i % 6 == 0 else if h == 5 then i % 10 == 0 else i % 12 == 0
  }

  /** For an exact multiple, the quotient is itself even and at least 2, so rounding keeps it. */
  lemma QuotOfExactMultiple(i: int, h: int)
    requires i >= 2 && (h == 3 || h == 5 || h == 6) && ExactMultiple(i, h)
    ensures Quot(i, h) % 2 == 0 && Quot(i, h) >= 2
    ensures RoundUpEven(Quot(i, h)) == Quot(i, h)
  {
    var k := if h == 3 then i / 6 else if h == 5 then i / 10 else i / 12;
    assert i == 2 * h * k;
    assert Quot(i, h) == 2 * k;
  }

  /** A non-zero quotient of an even index leaves room for the two candidate bins below the index. */
  lemma QuotLeavesRoom(i: int, h: int)
    requires i >= 2 && i % 2 == 0 && (h == 3 || h == 5 || h == 6) && Quot(i, h) >= 1
    ensures RoundUpEven(Quot(i, h)) + 2 <= i
    ensures 3 * RoundUpEven(Quot(i, h)) <= i + 3
  {
  }

  /** The index `checkSpecificHarmonic` returns and the `magI` it leaves behind. */
  datatype Check = Check(index: int, mag: real)

  /** What the checks demand of their callers: an even data index of the scan and a whole frame. */
  predicate ScanIndex(i: int, v: Block)
  {
    |v| >= MasterFftLength && i % 2 == 0 && 2 <= i <= MasterFftLength - 2
  }

  /**
   * `checkSpecificHarmonic` when `i` is an exact multiple: the quotient `root`
   * is taken, with its magnitude, exactly when it passes the 20 dB gate against
   * `magI` and is a strict local peak.
   */
  function ExactCheck(root: int, i: int, magI: real, v: Block): (r: Check)
    requires ScanIndex(i, v) && root % 2 == 0 && 2 <= root && 3 * root <= i
    ensures r.index % 2 == 0 && 0 <= r.index <= i
    ensures r == Check(i, magI) || r == Check(root, Magnitude(v, root))
    ensures r.index == root <==>
              Within20dB(magI, Magnitude(v, root))
              && Magnitude(v, root) > Magnitude(v, root - 2) && Magnitude(v, root) > Magnitude(v, root + 2)
  {
    if Within20dB(magI, Magnitude(v, root)) then
      if Magnitude(v, root) > Magnitude(v, root - 2) && Magnitude(v, root) > Magnitude(v, root + 2) then
        Check(root, Magnitude(v, root))
      else Check(i, magI)
    else Check(i, magI)
  }

  /**
   * `checkSpecificHarmonic` when `i` is below the harmonic number: bin 2 wins,
   * with its magnitude, whenever it beats `magI`; otherwise `magI` stays and
   * the DC bin is taken exactly when it beats `magI` at a bin width above 20 Hz.
   */
  function LowCheck(i: int, magI: real, v: Block, rate: real): (r: Check)
    requires ScanIndex(i, v)
    ensures r.index % 2 == 0 && 0 <= r.index <= i
    ensures Magnitude(v, 2) > magI ==> r == Check(2, Magnitude(v, 2))
    ensures Magnitude(v, 2) <= magI ==>
              r.mag == magI
              && (r.index == 0 || r.index == i)
              && (r.index == 0 <==> Magnitude(v, 0) > magI && rate / MasterFftLength as real > 20.0)
  {
    var index := if Magnitude(v, 0) > magI && rate / MasterFftLength as real > 20.0 then 0 else i;
    if Magnitude(v, 2) > magI then Check(2, Magnitude(v, 2)) else Check(index, magI)
  }

  /**
   * `checkSpecificHarmonic` otherwise: the even indices `root1` and `root1 + 2`
   * around the quotient compete.  The lower one is taken only when it beats the
   * upper one, passes the 20 dB gate and beats its own lower neighbour; the
   * upper one only when the lower one did not beat it or failed the gate, and
   * it passes the gate and beats its own upper neighbour.
   */
  function RootsCheck(root1: int, i: int, magI: real, v: Block): (r: Check)
    requires ScanIndex(i, v) && root1 % 2 == 0 && 2 <= root1 && root1 + 2 <= i && 3 * root1 <= i + 3
    ensures r.index % 2 == 0 && 0 <= r.index <= i
    ensures r == Check(i, magI) || r == Check(root1, Magnitude(v, root1))
            || r == Check(root1 + 2, Magnitude(v, root1 + 2))
    ensures r.index == root1 && root1 != i ==>
              Magnitude(v, root1) > Magnitude(v, root1 + 2) && Within20dB(magI, Magnitude(v, root1))
              && Magnitude(v, root1) > Magnitude(v, root1 - 2)
    ensures r.index == root1 + 2 && root1 + 2 != i ==>
              !(Magnitude(v, root1) > Magnitude(v, root1 + 2) && Within20dB(magI, Magnitude(v, root1)))
              && Within20dB(magI, Magnitude(v, root1 + 2))
              && Magnitude(v, root1 + 2) > Magnitude(v, root1 + 4)
  {
    var root2 := root1 + 2;
    if Magnitude(v, root1) > Magnitude(v, root2) && Within20dB(magI, Magnitude(v, root1)) then
      if Magnitude(v, root1) > Magnitude(v, root1 - 2) then Check(root1, Magnitude(v, root1))
      else Check(i, magI)
    else if Within20dB(magI, Magnitude(v, root2)) then
      if Magnitude(v, root2) > Magnitude(v, root2 + 2) then Check(root2, Magnitude(v, root2))
      else Check(i, magI)
    else Check(i, magI)
  }

  /**
   * `checkSpecificHarmonic(h, i, magI, v)` for the harmonic numbers it is called
   * with: the case split on `i`.  Whatever the case, the chosen index is even
   * and never above `i`, and the magnitude left behind is `magI` or that of the
   * chosen bin.
   */
  function HarmonicCheck(h: int, i: int, magI: real, v: Block, rate: real): (r: Check)
    requires h == 3 || h == 5 || h == 6
    requires ScanIndex(i, v)
    ensures r.index % 2 == 0 && 0 <= r.index <= i
    ensures r.mag == magI || r.mag == Magnitude(v, r.index)
  {
    if ExactMultiple(i, h) then
      QuotOfExactMultiple(i, h);
      ExactCheck(RoundUpEven(Quot(i, h)), i, magI, v)
    else if Quot(i, h) == 0 then
      LowCheck(i, magI, v, rate)
    else
      QuotLeavesRoom(i, h);
      RootsCheck(RoundUpEven(Quot(i, h)), i, magI, v)
  }

  /**
   * `checkSpecificHarmonic`, statement by statement: `magI` is passed by
   * reference, so the method returns its new value beside the index.  The
   * `static` scratch variables of the source are locals here.
   */
  method CheckSpecificHarmonic(h: int, i: int, magI: real, v: Block, rate: real)
    returns (index: int, newMagI: real)
    requires h == 3 || h == 5 || h == 6
    requires ScanIndex(i, v)
    ensures Check(index, newMagI) == HarmonicCheck(h, i, magI, v, rate)
  {
    index, newMagI := i, magI;
    if ExactMultiple(i, h) {
      QuotOfExactMultiple(i, h);
      var rootIndex1 := Quot(i, h);
      rootIndex1 := rootIndex1 + rootIndex1 % 2;
      var fftMag1 := Magnitude(v, rootIndex1);
      if Within20dB(newMagI, fftMag1) {
        var fftMagMin1 := Magnitude(v, rootIndex1 - 2);
        var fftMagPlus1 := Magnitude(v, rootIndex1 + 2);
        if fftMag1 > fftMagMin1 && fftMag1 > fftMagPlus1 {
          index := rootIndex1;
          newMagI := fftMag1;
        }
      }
    } else if Quot(i, h) == 0 {
      var fftMag1 := Magnitude(v, 0);
      var fftMagPlus1 := Magnitude(v, 2);
      if fftMag1 > newMagI && rate / MasterFftLength as real > 20.0 {
        index := 0;
      }
      if fftMagPlus1 > newMagI {
        index := 2;
        newMagI := fftMagPlus1;
      }
    } else {
      QuotLeavesRoom(i, h);
      var rootIndex1 := Quot(i, h);
      rootIndex1 := rootIndex1 + rootIndex1 % 2;
      var rootIndex2 := rootIndex1 + 2;
      var fftMag1 := Magnitude(v, rootIndex1);
      var fftMag2 := Magnitude(v, rootIndex2);
      if fftMag1 > fftMag2 && Within20dB(newMagI, fftMag1) {
        var fftMagMin1 := Magnitude(v, rootIndex1 - 2);
        if fftMag1 > fftMagMin1 {
          index := rootIndex1;
          newMagI := fftMag1;
        }
      } else if Within20dB(newMagI, fftMag2) {
        var fftMagPlus1 := Magnitude(v, rootIndex2 + 2);
        if fftMag2 > fftMagPlus1 {
          index := rootIndex2;
          newMagI := fftMag2;
        }
      }
    }
  }

  /**
   * `fundamentalFrequencyChecker(i, magI, v)`: the 3rd, 5th and 6th harmonic
   * checks run in that order with `magI` threaded through them, and the
   * lowest index among `i` and their answers wins.
   */
  function FundamentalCheck(i: int, magI: real, v: Block, rate: real): (r: int)
    requires ScanIndex(i, v)
    ensures r % 2 == 0 && 0 <= r <= i
    ensures r <= HarmonicCheck(3, i, magI, v, rate).index
  {
    var c3 := HarmonicCheck(3, i, magI, v, rate);
    var c5 := HarmonicCheck(5, i, c3.mag, v, rate);
    var c6 := HarmonicCheck(6, i, c5.mag, v, rate);
    Min(Min(Min(i, c3.index), c5.index), c6.index)
  }

  /** `fundamentalFrequencyChecker`, with `largestMag` and `indexToReturn` updated in turn. */
  method FundamentalFrequencyChecker(i: int, magI: real, v: Block, rate: real)
    returns (indexToReturn: int)
    requires ScanIndex(i, v)
    ensures indexToReturn == FundamentalCheck(i, magI, v, rate)
  {
    indexToReturn := i;
    var largestMag := magI;
    var tempIndexHolder;
    tempIndexHolder, largestMag := CheckSpecificHarmonic(3, i, largestMag, v, rate);
    indexToReturn := if tempIndexHolder < indexToReturn then tempIndexHolder else indexToReturn;
    tempIndexHolder, largestMag := CheckSpecificHarmonic(5, i, largestMag, v, rate);
    indexToReturn := if tempIndexHolder < indexToReturn then tempIndexHolder else indexToReturn;
    tempIndexHolder, largestMag := CheckSpecificHarmonic(6, i, largestMag, v, rate);
    indexToReturn := if tempIndexHolder < indexToReturn then tempIndexHolder else indexToReturn;
  }

  /** The scan's running state: the chosen index and the largest magnitude seen so far. */
  datatype Peak = Peak(maxIndex: int, maxElement: real)

  /** A whole frame and an even scan bound between the first bin and the end. */
  predicate ScanBound(v: Block, n: int)
  {
    |v| >= MasterFftLength && n % 2 == 0 && 2 <= n <= MasterFftLength
  }

  /**
   * The state of `findComplexMaxIndex`'s loop once every bin below data index
   * `n` was looked at: it starts at the DC bin, and a bin whose magnitude strictly
   * exceeds the running maximum hands the checker the PREVIOUS running maximum
   * and becomes the new running maximum, whatever index the checker chose.
   */
  function Scan(v: Block, rate: real, n: int): (r: Peak)
    requires ScanBound(v, n)
    ensures r.maxIndex % 2 == 0 && 0 <= r.maxIndex <= n - 2
    decreases |v|, n
  {
    if n == 2 then Peak(0, Magnitude(v, 0)) else ScanStep(Scan(v, rate, n - 2), n - 2, v, rate)
  }

  /**
   * One iteration of the scan at data index `i`: a strictly larger magnitude
   * becomes the running maximum and moves the chosen index to an even index
   * no later than `i`; otherwise nothing changes.
   */
  function ScanStep(p: Peak, i: int, v: Block, rate: real): (r: Peak)
    requires ScanIndex(i, v)
    ensures p.maxElement < Magnitude(v, i) ==>
              r.maxElement == Magnitude(v, i) && r.maxIndex % 2 == 0 && 0 <= r.maxIndex <= i
    ensures p.maxElement >= Magnitude(v, i) ==> r == p
  {
    if p.maxElement < Magnitude(v, i) then Peak(FundamentalCheck(i, p.maxElement, v, rate), Magnitude(v, i))
    else p
  }

  /** `findComplexMaxIndex`: an even data index in [0, masterFFTLength - 2]. */
  function ComplexMaxIndex(v: Block, rate: real): (r: int)
    requires |v| >= MasterFftLength
    ensures r % 2 == 0 && 0 <= r <= MasterFftLength - 2
  {
    Scan(v, rate, MasterFftLength).maxIndex
  }

  /** `findComplexMaxIndex`'s loop over data indices 2, 4, ..., masterFFTLength - 2. */
  method FindComplexMaxIndex(v: Block, rate: real) returns (maxIndex: int)
    requires |v| >= MasterFftLength
    ensures maxIndex == ComplexMaxIndex(v, rate)
    ensures maxIndex % 2 == 0 && 0 <= maxIndex <= MasterFftLength - 2
  {
    maxIndex := 0;
    var maxElement := Magnitude(v, maxIndex);
    var i := 2;
    while i < MasterFftLength
      invariant ScanBound(v, i)
      invariant Scan(v, rate, i) == Peak(maxIndex, maxElement)
    {
      ScanUnfolds(v, rate, i);
      maxIndex, maxElement := ConsiderBin(i, v, rate, maxIndex, maxElement);
      i := i + 2;
    }
  }

  lemma ScanUnfolds(v: Block, rate: real, i: int)
    requires ScanBound(v, i) && i < MasterFftLength
    ensures ScanBound(v, i + 2) && ScanIndex(i, v)
    ensures Scan(v, rate, i + 2) == ScanStep(Scan(v, rate, i), i, v, rate)
  {
  }

  /**
   * The body of `findComplexMaxIndex`'s loop at data index `i`: a strictly
   * louder bin hands the checker the running maximum and then replaces it.
   */
  method ConsiderBin(i: int, v: Block, rate: real, maxIndex: int, maxElement: real)
    returns (newIndex: int, newElement: real)
    requires ScanIndex(i, v)
    ensures Peak(newIndex, newElement) == ScanStep(Peak(maxIndex, maxElement), i, v, rate)
  {
    newIndex, newElement := maxIndex, maxElement;
    var thisElement := Magnitude(v, i);
    if maxElement < thisElement {
      newIndex := FundamentalFrequencyChecker(i, maxElement, v, rate);
      newElement := thisElement;
    }
  }

  /**
   * Reference definition: the earliest bin of greatest magnitude below data index
   * `n`, the one a plain strict-increase argmax would keep.
   */
  function PeakBin(v: Block, n: int): (j: int)
    requires ScanBound(v, n)
    ensures j % 2 == 0 && 0 <= j <= n - 2
    ensures forall k :: 0 <= k && k + 1 < n && k % 2 == 0 ==> Magnitude(v, k) <= Magnitude(v, j)
    ensures forall k :: 0 <= k < j && k % 2 == 0 ==> Magnitude(v, k) < Magnitude(v, j)
    decreases |v|, n
  {
    if n == 2 then 0
    else
      var j := PeakBin(v, n - 2);
      if Magnitude(v, n - 2) > Magnitude(v, j) then n - 2 else j
  }

  /**
   * The running maximum ends as the magnitude of the earliest strongest bin `j`,
   * so ties keep the earlier bin; and the chosen index is the DC bin when `j`
   * is DC, else what the fundamental checker made of `j` against the running
   * maximum just before it.
   */
  lemma {:induction false} ScanFollowsPeakBin(v: Block, rate: real, n: int)
    requires ScanBound(v, n)
    ensures Scan(v, rate, n).maxElement == Magnitude(v, PeakBin(v, n))
    ensures PeakBin(v, n) == 0 ==> Scan(v, rate, n).maxIndex == 0
    ensures PeakBin(v, n) != 0 ==>
              Scan(v, rate, n).maxIndex
              == FundamentalCheck(PeakBin(v, n), Scan(v, rate, PeakBin(v, n)).maxElement, v, rate)
    decreases n
  {
    if n > 2 {
      ScanFollowsPeakBin(v, rate, n - 2);
    }
  }

  /** No bin strictly louder than DC: the scan never moves and the DC index is returned. */
  lemma NoRiseGivesDc(v: Block, rate: real)
    requires |v| >= MasterFftLength
    requires forall k :: 2 <= k && k + 1 < MasterFftLength && k % 2 == 0 ==> Magnitude(v, k) <= Magnitude(v, 0)
    ensures ComplexMaxIndex(v, rate) == 0
  {
    ScanFollowsPeakBin(v, rate, MasterFftLength);
  }

  /** The running maximum is the largest magnitude over the bins scanned, reached by one of them. */
  lemma ScanMaxIsMaxMagnitude(v: Block, rate: real, n: int)
    requires ScanBound(v, n)
    ensures forall k :: 0 <= k && k + 1 < n && k % 2 == 0 ==> Magnitude(v, k) <= Scan(v, rate, n).maxElement
    ensures exists k :: 0 <= k && k + 1 < n && k % 2 == 0 && Magnitude(v, k) == Scan(v, rate, n).maxElement
  {
    ScanFollowsPeakBin(v, rate, n);
    var j := PeakBin(v, n);
    assert Magnitude(v, j) == Scan(v, rate, n).maxElement;
  }

  /** Two frames that hold the same values at every data index below masterFFTLength. */
  predicate AgreeBelowLength(v: Block, w: Block)
    requires |v| >= MasterFftLength && |w| >= MasterFftLength
  {
    forall k :: 0 <= k < MasterFftLength ==> v[k] == w[k]
  }

  /** Frames that agree below masterFFTLength have the same magnitude in every bin there. */
  lemma MagnitudeAgrees(v: Block, w: Block, k: int)
    requires |v| >= MasterFftLength && |w| >= MasterFftLength && AgreeBelowLength(v, w)
    requires 0 <= k && k + 1 < MasterFftLength
    ensures Magnitude(v, k) == Magnitude(w, k)
  {
    assert v[k] == w[k] && v[k + 1] == w[k + 1];
  }

  /** Frames that agree below masterFFTLength agree on every harmonic check. */
  lemma HarmonicCheckReadsPrefix(h: int, i: int, magI: real, v: Block, w: Block, rate: real)
    requires h == 3 || h == 5 || h == 6
    requires ScanIndex(i, v) && ScanIndex(i, w) && AgreeBelowLength(v, w)
    ensures HarmonicCheck(h, i, magI, v, rate) == HarmonicCheck(h, i, magI, w, rate)
  {
    if ExactMultiple(i, h) {
      QuotOfExactMultiple(i, h);
      var root := Quot(i, h);
      MagnitudeAgrees(v, w, root - 2);
      MagnitudeAgrees(v, w, root);
      MagnitudeAgrees(v, w, root + 2);
    } else if Quot(i, h) == 0 {
      MagnitudeAgrees(v, w, 0);
      MagnitudeAgrees(v, w, 2);
    } else {
      QuotLeavesRoom(i, h);
      var root1 := RoundUpEven(Quot(i, h));
      MagnitudeAgrees(v, w, root1 - 2);
      MagnitudeAgrees(v, w, root1);
      MagnitudeAgrees(v, w, root1 + 2);
      MagnitudeAgrees(v, w, root1 + 4);
    }
  }

  /** The same holds for the three checks together. */
  lemma FundamentalCheckReadsPrefix(i: int, magI: real, v: Block, w: Block, rate: real)
    requires ScanIndex(i, v) && ScanIndex(i, w) && AgreeBelowLength(v, w)
    ensures FundamentalCheck(i, magI, v, rate) == FundamentalCheck(i, magI, w, rate)
  {
    HarmonicCheckReadsPrefix(3, i, magI, v, w, rate);
    var c3 := HarmonicCheck(3, i, magI, v, rate);
    HarmonicCheckReadsPrefix(5, i, c3.mag, v, w, rate);
    var c5 := HarmonicCheck(5, i, c3.mag, v, rate);
    HarmonicCheckReadsPrefix(6, i, c5.mag, v, w, rate);
  }

  /** And for one step of the scan. */
  lemma ScanStepReadsPrefix(p: Peak, i: int, v: Block, w: Block, rate: real)
    requires ScanIndex(i, v) && ScanIndex(i, w) && AgreeBelowLength(v, w)
    ensures ScanStep(p, i, v, rate) == ScanStep(p, i, w, rate)
  {
    MagnitudeAgrees(v, w, i);
    FundamentalCheckReadsPrefix(i, p.maxElement, v, w, rate);
  }

  /**
   * `findComplexMaxIndex` reads nothing at or past data index masterFFTLength:
   * every index any check touches lies in [0, masterFFTLength).
   */
  lemma {:induction false} ScanReadsPrefix(v: Block, w: Block, rate: real, n: int)
    requires ScanBound(v, n) && ScanBound(w, n) && AgreeBelowLength(v, w)
    ensures Scan(v, rate, n) == Scan(w, rate, n)
    decreases n
  {
    if n > 2 {
      ScanReadsPrefix(v, w, rate, n - 2);
      ScanUnfolds(v, rate, n - 2);
      ScanUnfolds(w, rate, n - 2);
      ScanStepReadsPrefix(Scan(v, rate, n - 2), n - 2, v, w, rate);
    } else {
      MagnitudeAgrees(v, w, 0);
    }
  }

  /** A frame longer than masterFFTLength is handled as its first masterFFTLength values. */
  lemma ComplexMaxIndexReadsPrefix(v: Block, rate: real)
    requires |v| >= MasterFftLength
    ensures ComplexMaxIndex(v, rate) == ComplexMaxIndex(v[..MasterFftLength], rate)
  {
    ScanReadsPrefix(v, v[..MasterFftLength], rate, MasterFftLength);
  }

  /**
   * The phase-vocoder step of `findExactMaxFrequency`: from the top and next
   * frames, the chosen data index, the hop in samples and the sample rate, the
   * frequency in Hz.
   */
  type Refinement = (Block, Block, int, int, real) -> real

  /**
   * `findExactMaxFrequency(top, next)`: 0 when the chosen bin is below the
   * noise threshold, else the refined frequency of that bin.
   */
  function ExactMaxFrequency(top: Block, next: Block, rate: real, hop: int, refine: Refinement): (f: real)
    requires |top| >= MasterFftLength
    ensures Magnitude(top, ComplexMaxIndex(top, rate)) < FftThreshold ==> f == 0.0
    ensures Magnitude(top, ComplexMaxIndex(top, rate)) >= FftThreshold ==>
              f == refine(top, next, ComplexMaxIndex(top, rate), hop, rate)
  {
    var maxIndex := ComplexMaxIndex(top, rate);
    if Magnitude(top, maxIndex) < FftThreshold then 0.0
    else refine(top, next, maxIndex, hop, rate)
  }

  /** `findExactMaxFrequency`: the index scan, then the silence gate. */
  method FindExactMaxFrequency(top: Block, next: Block, rate: real, hop: int, refine: Refinement)
    returns (f: real)
    requires |top| >= MasterFftLength
    ensures f == ExactMaxFrequency(top, next, rate, hop, refine)
  {
    var maxIndex := FindComplexMaxIndex(top, rate);
    if Magnitude(top, maxIndex) < FftThreshold {
      return 0.0;
    }
    f := refine(top, next, maxIndex, hop, rate);
  }

  /** A frame whose every bin is below the threshold reports no frequency at all. */
  lemma QuietFrameGivesZero(top: Block, next: Block, rate: real, hop: int, refine: Refinement)
    requires |top| >= MasterFftLength
    requires forall k :: 0 <= k && k + 1 < MasterFftLength && k % 2 == 0 ==>
               Magnitude(top, k) < FftThreshold
    ensures ExactMaxFrequency(top, next, rate, hop, refine) == 0.0
  {
    var maxIndex := ComplexMaxIndex(top, rate);
    assert Magnitude(top, maxIndex) < FftThreshold;
  }
}
