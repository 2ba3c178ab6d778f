/**
 * `FFTDataGenerator`: turns one analysis window of `fftSize` samples into a
 * spectral frame of `2 * fftSize` values and queues it on a second
 * `FifoStructure`.  The Blackman-Harris table and the real-only forward
 * transform belong to the DSP library; here they are given to the
 * constructor as a table of `fftSize` coefficients and a transform function.
 */
module Spectrum {
  import opened Common
  import opened Fifo

  /** `masterFFTOrder` (`order8192`). */
  const MasterFftOrder := 13
  /** `masterFFTLength = 1 << masterFFTOrder`. */
  const MasterFftLength := 8192

  function Pow2(k: nat): (r: nat)
    ensures r >= 1
  {
    if k == 0 then 1 else 2 * Pow2(k - 1)
  }

  /** The analysis length is two to the power of the order, 8192 for the order in use. */
  lemma MasterFftLengthIsPow2()
    ensures Pow2(MasterFftOrder) == MasterFftLength
  {
  }

  /**
   * The forward real-only transform: `t(buffer, k)` is the value it leaves at
   * index `k` of a `2 * fftSize` buffer whose first half held the windowed
   * samples (even indices real parts, odd indices imaginary parts).
   */
  type Transform = (Block, int) -> real

  /** The buffer the in-place transform leaves behind. */
  function Transformed(t: Transform, buffer: Block): (r: Block)
    ensures |r| == |buffer|
    ensures forall k :: 0 <= k < |buffer| ==> r[k] == t(buffer, k)
  {
    seq(|buffer|, k => t(buffer, k))
  }

  /** `multiplyWithWindowingTable(data, |table|)`: only the first `|table|` values are scaled. */
  function Windowed(table: Block, data: Block): (r: Block)
    requires |table| <= |data|
    ensures |r| == |data|
    ensures forall k :: 0 <= k < |table| ==> r[k] == data[k] * table[k]
    ensures forall k :: |table| <= k < |data| ==> r[k] == data[k]
  {
    seq(|data|, k requires 0 <= k < |data| => if k < |table| then data[k] * table[k] else data[k])
  }

  /** The zero-padded pre-transform buffer: the window, scaled by the table, then `|window|` zeros. */
  function PreTransform(table: Block, window: Block): (r: Block)
    requires |table| == |window|
    ensures |r| == 2 * |window|
    ensures forall k :: 0 <= k < |window| ==> r[k] == window[k] * table[k]
    ensures forall k :: |window| <= k < 2 * |window| ==> r[k] == 0.0
  {
    Windowed(table, window + Zeros(|window|))
  }

  /** The spectral frame that `produceFFTData` computes from one analysis window. */
  function SpectralFrame(table: Block, t: Transform, window: Block): (r: Block)
    requires |table| == |window|
    ensures |r| == 2 * |window|
  {
    Transformed(t, PreTransform(table, window))
  }

  /** `vector::assign(n, 0)` on a buffer of fixed length. */
  method Clear(data: array<real>)
    modifies data
    ensures data[..] == Zeros(data.Length)
  {
    var j := 0;
    while j < data.Length
      invariant 0 <= j <= data.Length
      invariant forall k :: 0 <= k < j ==> data[k] == 0.0
    {
      data[j] := 0.0;
      j := j + 1;
    }
  }

  /** `std::copy` of the first `n` values of `source` to the front of `data`. */
  method CopyInto(data: array<real>, source: Block, n: nat)
    requires n <= |source| && n <= data.Length
    modifies data
    ensures data[..n] == source[..n]
    ensures data[n..] == old(data[n..])
  {
    var j := 0;
    while j < n
      invariant 0 <= j <= n
      invariant forall k :: 0 <= k < j ==> data[k] == source[k]
      invariant forall k :: j <= k < data.Length ==> data[k] == old(data[k])
    {
      data[j] := source[j];
      j := j + 1;
    }
  }

  /** `multiplyWithWindowingTable(data, |table|)`. */
  method MultiplyWithWindowingTable(data: array<real>, table: Block)
    requires |table| <= data.Length
    modifies data
    ensures data[..] == Windowed(table, old(data[..]))
  {
    var j := 0;
    while j < |table|
      invariant 0 <= j <= |table|
      invariant forall k :: 0 <= k < j ==> data[k] == old(data[k]) * table[k]
      invariant forall k :: j <= k < data.Length ==> data[k] == old(data[k])
    {
      data[j] := data[j] * table[j];
      j := j + 1;
    }
    assert forall k :: 0 <= k < data.Length ==> data[k] == Windowed(table, old(data[..]))[k];
  }

  /** `performRealOnlyForwardTransform(data)`: the transform overwrites the buffer in place. */
  method PerformForwardTransform(data: array<real>, t: Transform)
    modifies data
    ensures data[..] == Transformed(t, old(data[..]))
  {
    var spectrum := Transformed(t, data[..]);
    forall k | 0 <= k < data.Length {
      data[k] := spectrum[k];
    }
  }

  class FftDataGenerator {
    const order: nat
    /** `getFFTSize()`: `1 << order`, the number of samples analysed per frame. */
    const fftSize: nat
    /** The window's coefficients, one per analysed sample. */
    const windowTable: Block
    const transform: Transform
    /** The `2 * fftSize` work buffer the transform runs in. */
    const fftData: array<real>
    const fftDataFifo: FifoStructure

    /** The objects the generator owns: its work buffer and its frame FIFO. */
    ghost function Repr(): set<object>
    {
      {this, fftData} + fftDataFifo.Repr()
    }

    ghost predicate Valid()
      reads Repr()
    {
      && fftDataFifo.Valid()
      && fftSize == Pow2(order)
      && |windowTable| == fftSize
      && fftData.Length == 2 * fftSize
      && fftDataFifo.emptyBuffer == Zeros(2 * fftSize)
      && forall k :: 0 <= k < |fftDataFifo.Contents| ==> |fftDataFifo.Contents[k]| == 2 * fftSize
    }

    /** `getFFTSize`. */
    function GetFftSize(): (n: nat)
      reads Repr()
      requires Valid()
      ensures n == Pow2(order) && n >= 1
    {
      fftSize
    }

    /**
     * The constructor: `fftData` becomes `2 * fftSize` zeros and the frame FIFO
     * is prepared for frames of that length.
     */
    constructor (fftOrder: nat, table: Block, t: Transform)
      requires |table| == Pow2(fftOrder)
      ensures Valid() && fresh(Repr())
      ensures order == fftOrder && fftSize == Pow2(fftOrder) && windowTable == table && transform == t
      ensures fftData[..] == Zeros(2 * Pow2(fftOrder))
      ensures fftDataFifo.Contents == []
    {
      order := fftOrder;
      fftSize := Pow2(fftOrder);
      windowTable := table;
      transform := t;
      fftData := new real[2 * Pow2(fftOrder)](_ => 0.0);
      var fifo := new FifoStructure();
      fifo.Prepare(2 * Pow2(fftOrder));
      fftDataFifo := fifo;
    }

    /**
     * `produceFFTData`: clear `fftData`, copy the first `fftSize` samples of the
     * window into it, scale them by the window table, transform the whole
     * buffer in place and push a copy of it on the frame FIFO (dropped when full).
     */
    method ProduceFftData(audioData: Block)
      requires Valid()
      requires |audioData| >= fftSize
      modifies Repr()
      ensures Valid()
      ensures fftData[..] == SpectralFrame(windowTable, transform, audioData[..fftSize])
      ensures fftDataFifo.Contents == FifoPush(old(fftDataFifo.Contents), fftData[..])
    {
      var fftSize := GetFftSize();
      Clear(fftData);
      CopyInto(fftData, audioData, fftSize);
      assert fftData[..] == audioData[..fftSize] + Zeros(fftSize) by {
        assert fftData[..] == fftData[..fftSize] + fftData[fftSize..];
      }
      MultiplyWithWindowingTable(fftData, windowTable);
      assert fftData[..] == PreTransform(windowTable, audioData[..fftSize]);
      PerformForwardTransform(fftData, transform);
      var pushed := fftDataFifo.Push(fftData[..]);
    }

    /** `getNumAvailableFFTDataBlocks`. */
    function GetNumAvailableFftDataBlocks(): (n: int)
      reads Repr()
      requires Valid()
      ensures n == |fftDataFifo.Contents|
    {
      fftDataFifo.GetNumAvailableForReading()
    }

    /** `pullTopViewNext` on the frame FIFO. */
    method PullTopViewNext(bufferToHold1: Block, bufferToHold2: Block)
      returns (numSeen: int, held1: Block, held2: Block)
      requires Valid()
      modifies fftDataFifo
      ensures Valid()
      ensures fftDataFifo.emptyBuffer == old(fftDataFifo.emptyBuffer)
      ensures |old(fftDataFifo.Contents)| == 0 ==>
                numSeen == 0 && held1 == bufferToHold1 && held2 == bufferToHold2
                && fftDataFifo.Contents == old(fftDataFifo.Contents)
      ensures |old(fftDataFifo.Contents)| == 1 ==>
                numSeen == 1 && held1 == old(fftDataFifo.Contents)[0]
                && held2 == Zeros(2 * fftSize) && fftDataFifo.Contents == []
      ensures |old(fftDataFifo.Contents)| >= 2 ==>
                numSeen == 2 && held1 == old(fftDataFifo.Contents)[0]
                && held2 == old(fftDataFifo.Contents)[1]
                && fftDataFifo.Contents == old(fftDataFifo.Contents)[1..]
    {
      numSeen, held1, held2 := fftDataFifo.PullTopViewNext(bufferToHold1, bufferToHold2);
    }

    /** `getFFTData`: pull the oldest frame, or leave the buffer as it was when none is queued. */
    method GetFftData(buffer: Block) returns (pulled: bool, held: Block)
      requires Valid()
      modifies fftDataFifo
      ensures Valid()
      ensures pulled <==> old(fftDataFifo.Contents) != []
      ensures pulled ==> held == old(fftDataFifo.Contents)[0]
                         && fftDataFifo.Contents == old(fftDataFifo.Contents)[1..]
      ensures !pulled ==> held == buffer && fftDataFifo.Contents == old(fftDataFifo.Contents)
    {
      pulled, held := fftDataFifo.Pull(buffer);
    }
  }
}
