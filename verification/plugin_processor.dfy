/**
 * `SimpleTunerAudioProcessor`: the analysis pipeline behind the tuner.
 * Incoming samples are cut into host-sized blocks; every complete block is
 * shifted into an analysis window of `masterFFTLength` samples, which is
 * windowed, transformed and queued as a spectral frame; every pair of
 * consecutive frames then yields a frequency estimate in `currentExactF`.
 * Only the one (mono) input channel is modelled.
 */
module Processor {
  import opened Common
  import opened Fifo
  import opened SampleAccumulator
  import opened Spectrum
  import opened PeakSelection

  /** The window with its first `|block|` samples dropped and the block appended. */
  function ShiftedIn(window: Block, block: Block): (r: Block)
    requires |block| <= |window|
    ensures |r| == |window|
  {
    window[|block|..] + block
  }

  /**
   * The two copies of `processBlock` that update the analysis window in place:
   * the samples after the first `|block|` move to the front, then the block
   * fills the freed tail.
   */
  method ShiftIn(window: array<real>, block: Block)
    requires |block| <= window.Length
    modifies window
    ensures window[..] == ShiftedIn(old(window[..]), block)
  {
    var size := |block|;
    var j := 0;
    while j < window.Length - size
      invariant 0 <= j <= window.Length - size
      invariant forall k :: 0 <= k < j ==> window[k] == old(window[k + size])
      invariant forall k :: j <= k < window.Length ==> window[k] == old(window[k])
    {
      window[j] := window[j + size];
      j := j + 1;
    }
    j := 0;
    while j < size
      invariant 0 <= j <= size
      invariant forall k :: 0 <= k < window.Length - size ==> window[k] == old(window[k + size])
      invariant forall k :: 0 <= k < j ==> window[window.Length - size + k] == block[k]
    {
      window[window.Length - size + j] := block[j];
      j := j + 1;
    }
    assert forall k :: 0 <= k < window.Length ==> window[k] == ShiftedIn(old(window[..]), block)[k];
  }

  /** All samples of the blocks, in order. */
  function Flatten(blocks: seq<Block>): (s: Block)
  {
    if blocks == [] then [] else Flatten(blocks[..|blocks| - 1]) + blocks[|blocks| - 1]
  }

  /** The analysis window and the queued spectral frames. */
  datatype Analysis = Analysis(window: Block, frames: seq<Block>)

  /** Blocks that fit in the window, and a window table of the window's length. */
  predicate Feedable(window: Block, blocks: seq<Block>, table: Block)
  {
    |table| == |window| && forall k :: 0 <= k < |blocks| ==> |blocks[k]| <= |window|
  }

  /**
   * The block drain loop of `processBlock`: each pulled block is shifted into
   * the window, and the windowed, transformed window is queued as a frame
   * (dropped when the frame queue is full).
   */
  function FramesFromBlocks(window: Block, frames: seq<Block>, blocks: seq<Block>, table: Block, t: Transform): (r: Analysis)
    requires Feedable(window, blocks, table)
    ensures |r.window| == |window|
    ensures |r.frames| >= |frames| && r.frames[..|frames|] == frames
    ensures |frames| <= UsableCapacity ==> |r.frames| == Min(|frames| + |blocks|, UsableCapacity)
    ensures forall k :: |frames| <= k < |r.frames| ==> |r.frames[k]| == 2 * |window|
    decreases |blocks|
  {
    if blocks == [] then Analysis(window, frames)
    else
      var p := FramesFromBlocks(window, frames, blocks[..|blocks| - 1], table, t);
      var w := ShiftedIn(p.window, blocks[|blocks| - 1]);
      Analysis(w, FifoPush(p.frames, SpectralFrame(table, t, w)))
  }

  /** One more block: its shift into the window and the frame of the new window. */
  lemma FramesFromOneMoreBlock(window: Block, frames: seq<Block>, blocks: seq<Block>, j: int, table: Block, t: Transform)
    requires Feedable(window, blocks, table) && 0 <= j < |blocks|
    ensures Feedable(window, blocks[..j], table) && Feedable(window, blocks[..j + 1], table)
    ensures var p := FramesFromBlocks(window, frames, blocks[..j], table, t);
            var w := ShiftedIn(p.window, blocks[j]);
            FramesFromBlocks(window, frames, blocks[..j + 1], table, t) == Analysis(w, FifoPush(p.frames, SpectralFrame(table, t, w)))
  {
    assert blocks[..j + 1][..j] == blocks[..j];
  }

  /** After any blocks, the window holds the latest `|window|` samples of the old window followed by the blocks. */
  lemma {:induction false} WindowHoldsLatestSamples(window: Block, frames: seq<Block>, blocks: seq<Block>, table: Block, t: Transform)
    requires Feedable(window, blocks, table)
    ensures FramesFromBlocks(window, frames, blocks, table, t).window
            == (window + Flatten(blocks))[|Flatten(blocks)|..]
    decreases |blocks|
  {
    if blocks == [] {
      assert window + [] == window;
    } else {
      var n := |blocks|;
      var front := blocks[..n - 1];
      var b := blocks[n - 1];
      assert Feedable(window, front, table);
      WindowHoldsLatestSamples(window, frames, front, table, t);
      var f := Flatten(front);
      assert Flatten(blocks) == f + b;
      assert window + Flatten(blocks) == (window + f) + b;
      DropThenAppend(window + f, |f|, b);
    }
  }

  /** Dropping `m` and then `|b|` values before appending `b` is dropping `m + |b|` after it. */
  lemma DropThenAppend(x: Block, m: nat, b: Block)
    requires m + |b| <= |x|
    ensures x[m..][|b|..] + b == (x + b)[m + |b|..]
  {
    assert x[m..][|b|..] == x[m + |b|..];
  }

  /**
   * The frame queued for the `j`-th block (counted from 0) is the spectral
   * frame of the window right after that block was shifted in.
   */
  lemma {:induction false} FrameIsSpectrumOfWindow(window: Block, frames: seq<Block>, blocks: seq<Block>, table: Block, t: Transform, j: int)
    requires Feedable(window, blocks, table) && |frames| <= UsableCapacity
    requires 0 <= j && |frames| + j < |FramesFromBlocks(window, frames, blocks, table, t).frames|
    ensures j < |blocks|
    ensures FramesFromBlocks(window, frames, blocks, table, t).frames[|frames| + j]
            == SpectralFrame(table, t, FramesFromBlocks(window, frames, blocks[..j + 1], table, t).window)
    decreases |blocks|
  {
    var n := |blocks|;
    var front := blocks[..n - 1];
    assert Feedable(window, front, table);
    var p := FramesFromBlocks(window, frames, front, table, t);
    if |frames| + j < |p.frames| {
      FrameIsSpectrumOfWindow(window, frames, front, table, t, j);
      assert front[..j + 1] == blocks[..j + 1];
    } else {
      assert blocks[..n] == blocks;
    }
  }

  /** The frames, the two held frames and the estimate after the frame drain loop. */
  datatype Estimate = Estimate(frames: seq<Block>, top: Block, next: Block, exactF: real)

  /** Frames long enough for the peak scan. */
  predicate LongFrames(frames: seq<Block>)
  {
    forall k :: 0 <= k < |frames| ==> |frames[k]| >= MasterFftLength
  }

  /**
   * The frame drain loop of `processBlock`: while two frames are ready, look
   * at the oldest two, consume the oldest and estimate the frequency from the
   * pair.  It stops with at most one frame left, and the estimate that stays
   * is the one from the last two frames.
   */
  function EstimatesFromFrames(frames: seq<Block>, top: Block, next: Block, exactF: real,
                               rate: real, hop: int, refine: Refinement): (r: Estimate)
    requires LongFrames(frames)
    ensures |frames| <= 1 ==> r == Estimate(frames, top, next, exactF)
    ensures |frames| >= 2 ==>
              r == Estimate([frames[|frames| - 1]], frames[|frames| - 2], frames[|frames| - 1],
                            ExactMaxFrequency(frames[|frames| - 2], frames[|frames| - 1], rate, hop, refine))
    decreases |frames|
  {
    if |frames| <= 1 then Estimate(frames, top, next, exactF)
    else
      EstimatesFromFrames(frames[1..], frames[0], frames[1],
                          ExactMaxFrequency(frames[0], frames[1], rate, hop, refine), rate, hop, refine)
  }

  class TunerProcessor {
    const bufferFifo: AudioBufferFifo
    const fftDataStructure: FftDataGenerator
    /** The block most recently pulled from `bufferFifo`; its length is the hop between frames. */
    var dummyBuffer: Block
    /** The analysis window (channel 0 of `audioBufferForFFT`). */
    var audioBufferForFFT: array<real>
    var topFFTData: Block
    var nextFFTData: Block
    var currentExactF: real
    /** What `getSampleRate()` answers: the rate the host last prepared the processor with. */
    var sampleRate: real
    /** The phase-vocoder refinement of `findExactMaxFrequency`. */
    const refine: Refinement

    /** The objects the processor owns. */
    ghost function Repr(): set<object>
      reads this
    {
      {this, audioBufferForFFT} + bufferFifo.Repr() + fftDataStructure.Repr()
    }

    ghost predicate Valid()
      reads this, Repr()
    {
      && bufferFifo.Repr() !! fftDataStructure.Repr()
      && this !in bufferFifo.Repr() && this !in fftDataStructure.Repr()
      && audioBufferForFFT != fftDataStructure.fftData
      && bufferFifo.Valid() && fftDataStructure.Valid()
      && fftDataStructure.fftSize == MasterFftLength
    }

    /** After `prepareToPlay` with a usable block size: blocks fit in the analysis window. */
    ghost predicate Prepared()
      reads this, Repr()
      requires Valid()
    {
      && bufferFifo.prepared
      && 0 < bufferFifo.size <= audioBufferForFFT.Length
      && audioBufferForFFT.Length == MasterFftLength
    }

    /** The spectral frames queued in the frame FIFO, oldest first. */
    ghost function Frames(): seq<Block>
      reads this, fftDataStructure, fftDataStructure.fftDataFifo
    {
      fftDataStructure.fftDataFifo.Contents
    }

    /** The processor as constructed: the window table and transform are those of the DSP library. */
    constructor (table: Block, t: Transform, refinement: Refinement)
      requires |table| == MasterFftLength
      ensures Valid() && fresh(Repr())
      ensures refine == refinement && currentExactF == 0.0
      ensures fftDataStructure.windowTable == table && fftDataStructure.transform == t
      ensures Frames() == [] && bufferFifo.fifoStructure.Contents == [] && !bufferFifo.prepared
    {
      bufferFifo := new AudioBufferFifo();
      fftDataStructure := new FftDataGenerator(MasterFftOrder, table, t);
      dummyBuffer := [];
      audioBufferForFFT := new real[0];
      topFFTData, nextFFTData := [], [];
      currentExactF := 0.0;
      sampleRate := 0.0;
      refine := refinement;
    }

    /**
     * `prepareToPlay`: prepare the sample FIFO for the host's block size, size
     * the analysis window to `fftSize` (its samples are unspecified when it is
     * reallocated, kept when its size is already right), zero the two held
     * frames and set `currentExactF` to -1.
     */
    method PrepareToPlay(rate: real, samplesPerBlock: nat)
      requires Valid()
      modifies this, bufferFifo.Repr()
      ensures Valid()
      ensures audioBufferForFFT == old(audioBufferForFFT) || fresh(audioBufferForFFT)
      ensures sampleRate == rate && currentExactF == -1.0
      ensures topFFTData == Zeros(MasterFftLength) && nextFFTData == Zeros(MasterFftLength)
      ensures audioBufferForFFT.Length == MasterFftLength
      ensures old(audioBufferForFFT.Length) == MasterFftLength ==>
                audioBufferForFFT == old(audioBufferForFFT) && audioBufferForFFT[..] == old(audioBufferForFFT[..])
      ensures bufferFifo.prepared && bufferFifo.size == samplesPerBlock && bufferFifo.bufferIndex == 0
      ensures old(|bufferFifo.bufferToFill|) == samplesPerBlock ==>
                bufferFifo.bufferToFill == old(bufferFifo.bufferToFill)
      ensures old(|bufferFifo.bufferToFill|) != samplesPerBlock ==>
                bufferFifo.bufferToFill == Zeros(samplesPerBlock)
      ensures bufferFifo.fifoStructure.Contents
              == seq(|old(bufferFifo.fifoStructure.Contents)|, _ => Zeros(samplesPerBlock))
      ensures Frames() == old(Frames()) && dummyBuffer == old(dummyBuffer)
      ensures 0 < samplesPerBlock <= MasterFftLength ==> Prepared()
    {
      bufferFifo.Prepare(samplesPerBlock);
      // `setSize` keeps the channel when its size is already right
      var window := audioBufferForFFT;
      var fftSize := fftDataStructure.GetFftSize();
      if window.Length != fftSize {
        window := new real[fftSize];
      }
      audioBufferForFFT, topFFTData, nextFFTData, currentExactF, sampleRate
        := window, Zeros(MasterFftLength), Zeros(MasterFftLength), -1.0, rate;
    }

    /**
     * One pass of the block drain loop: pull the oldest complete block into
     * `dummyBuffer`, shift it into the analysis window and produce a frame
     * from the window.
     */
    method FeedNextBlock()
      requires Valid() && Prepared() && bufferFifo.fifoStructure.Contents != []
      modifies this, bufferFifo.fifoStructure, audioBufferForFFT, fftDataStructure.Repr()
      ensures Valid() && Prepared()
      ensures audioBufferForFFT == old(audioBufferForFFT)
      ensures bufferFifo.View() == old(bufferFifo.View()).(queued := old(bufferFifo.fifoStructure.Contents)[1..])
      ensures dummyBuffer == old(bufferFifo.fifoStructure.Contents)[0]
      ensures audioBufferForFFT[..] == ShiftedIn(old(audioBufferForFFT[..]), dummyBuffer)
      ensures Frames() == FifoPush(old(Frames()), SpectralFrame(fftDataStructure.windowTable, fftDataStructure.transform,
                                                                audioBufferForFFT[..]))
      ensures topFFTData == old(topFFTData) && nextFFTData == old(nextFFTData)
      ensures currentExactF == old(currentExactF) && sampleRate == old(sampleRate)
    {
      var pulled, held := bufferFifo.GetAudioBuffer(dummyBuffer);
      dummyBuffer := held;
      if pulled {
        ShiftIn(audioBufferForFFT, dummyBuffer);
        fftDataStructure.ProduceFftData(audioBufferForFFT[..]);
        assert audioBufferForFFT[..][..MasterFftLength] == audioBufferForFFT[..];
      }
    }

    /**
     * The block drain loop: pull every complete block, shift it into the
     * analysis window and produce one frame from the window per block.
     */
    method DrainBlocks()
      requires Valid() && Prepared()
      modifies this, bufferFifo.fifoStructure, audioBufferForFFT, fftDataStructure.Repr()
      ensures Valid() && Prepared()
      ensures audioBufferForFFT == old(audioBufferForFFT)
      ensures bufferFifo.View() == old(bufferFifo.View()).(queued := [])
      ensures Analysis(audioBufferForFFT[..], Frames())
              == FramesFromBlocks(old(audioBufferForFFT[..]), old(Frames()), old(bufferFifo.fifoStructure.Contents),
                                  fftDataStructure.windowTable, fftDataStructure.transform)
      ensures dummyBuffer == if old(bufferFifo.fifoStructure.Contents) == [] then old(dummyBuffer)
                             else old(bufferFifo.fifoStructure.Contents)[|old(bufferFifo.fifoStructure.Contents)| - 1]
      ensures LongFrames(Frames())
      ensures topFFTData == old(topFFTData) && nextFFTData == old(nextFFTData)
      ensures currentExactF == old(currentExactF) && sampleRate == old(sampleRate)
    {
      ghost var blocks := bufferFifo.fifoStructure.Contents;
      ghost var table := fftDataStructure.windowTable;
      ghost var t := fftDataStructure.transform;
      ghost var consumed := 0;
      while bufferFifo.GetNumCompleteBuffersAvailable() > 0
        invariant Valid() && Prepared()
        invariant audioBufferForFFT == old(audioBufferForFFT)
        invariant 0 <= consumed <= |blocks|
        invariant bufferFifo.View() == old(bufferFifo.View()).(queued := blocks[consumed..])
        invariant Analysis(audioBufferForFFT[..], Frames())
                  == FramesFromBlocks(old(audioBufferForFFT[..]), old(Frames()), blocks[..consumed], table, t)
        invariant dummyBuffer == if consumed == 0 then old(dummyBuffer) else blocks[consumed - 1]
        invariant topFFTData == old(topFFTData) && nextFFTData == old(nextFFTData)
        invariant currentExactF == old(currentExactF) && sampleRate == old(sampleRate)
        decreases |bufferFifo.fifoStructure.Contents|
      {
        FramesFromOneMoreBlock(old(audioBufferForFFT[..]), old(Frames()), blocks, consumed, table, t);
        FeedNextBlock();
        consumed := consumed + 1;
      }
      assert blocks[..consumed] == blocks;
    }

    /**
     * One pass of the frame drain loop: look at the oldest two frames, consume
     * the oldest and store the estimate the two give.
     */
    method EstimateFromOldestPair()
      requires Valid() && |Frames()| > 1
      modifies this, fftDataStructure.fftDataFifo
      ensures Valid()
      ensures audioBufferForFFT == old(audioBufferForFFT) && dummyBuffer == old(dummyBuffer)
      ensures sampleRate == old(sampleRate)
      ensures Frames() == old(Frames())[1..]
      ensures topFFTData == old(Frames())[0] && nextFFTData == old(Frames())[1]
      ensures currentExactF == ExactMaxFrequency(topFFTData, nextFFTData, sampleRate, |dummyBuffer|, refine)
    {
      var fftPullStatus, top, next := fftDataStructure.PullTopViewNext(topFFTData, nextFFTData);
      var exactF := currentExactF;
      if fftPullStatus != 0 {
        exactF := FindExactMaxFrequency(top, next, sampleRate, |dummyBuffer|, refine);
      }
      topFFTData, nextFFTData, currentExactF := top, next, exactF;
    }

    /**
     * The frame drain loop: while at least two frames are ready, look at the
     * oldest two, consume the oldest and store the estimate they give.
     */
    method DrainFrames()
      requires Valid()
      modifies this, fftDataStructure.fftDataFifo
      ensures Valid()
      ensures audioBufferForFFT == old(audioBufferForFFT) && dummyBuffer == old(dummyBuffer)
      ensures sampleRate == old(sampleRate)
      ensures Estimate(Frames(), topFFTData, nextFFTData, currentExactF)
              == EstimatesFromFrames(old(Frames()), old(topFFTData), old(nextFFTData), old(currentExactF),
                                     sampleRate, |dummyBuffer|, refine)
    {
      ghost var goal := EstimatesFromFrames(Frames(), topFFTData, nextFFTData, currentExactF,
                                            sampleRate, |dummyBuffer|, refine);
      while fftDataStructure.GetNumAvailableFftDataBlocks() > 1
        invariant Valid()
        invariant audioBufferForFFT == old(audioBufferForFFT) && dummyBuffer == old(dummyBuffer)
        invariant sampleRate == old(sampleRate)
        invariant EstimatesFromFrames(Frames(), topFFTData, nextFFTData, currentExactF,
                                      sampleRate, |dummyBuffer|, refine) == goal
        decreases |Frames()|
      {
        EstimateFromOldestPair();
      }
    }

    /**
     * `processBlock` for the input channel: feed the samples to the sample
     * FIFO, turn every complete block into a frame, then turn every pair of
     * frames into a frequency estimate.
     */
    method ProcessBlock(samples: Block)
      requires Valid() && Prepared()
      modifies Repr()
      ensures Valid() && Prepared()
      ensures bufferFifo.View() == Accumulate(old(bufferFifo.View()), samples).(queued := [])
      ensures var fed := FramesFromBlocks(old(audioBufferForFFT[..]), old(Frames()),
                                          Accumulate(old(bufferFifo.View()), samples).queued,
                                          fftDataStructure.windowTable, fftDataStructure.transform);
              && audioBufferForFFT[..] == fed.window
              && LongFrames(fed.frames)
              && Estimate(Frames(), topFFTData, nextFFTData, currentExactF)
                 == EstimatesFromFrames(fed.frames, old(topFFTData), old(nextFFTData), old(currentExactF),
                                        sampleRate, |dummyBuffer|, refine)
      ensures var queued := Accumulate(old(bufferFifo.View()), samples).queued;
              dummyBuffer == if queued == [] then old(dummyBuffer) else queued[|queued| - 1]
      ensures sampleRate == old(sampleRate)
    {
      ghost var dummy := dummyBuffer;
      bufferFifo.Update(samples);
      ghost var queued := bufferFifo.fifoStructure.Contents;
      ghost var fed := FramesFromBlocks(old(audioBufferForFFT[..]), old(Frames()), queued,
                                        fftDataStructure.windowTable, fftDataStructure.transform);
      DrainBlocks();
      assert dummyBuffer == if queued == [] then dummy else queued[|queued| - 1];
      assert audioBufferForFFT[..] == fed.window && Frames() == fed.frames;
      DrainFrames();
    }

    /** `getCurrentExactF`. */
    function GetCurrentExactF(): (f: real)
      reads this
      ensures f == currentExactF
    {
      currentExactF
    }
  }
}
