/**
 * `AudioBufferFifo`: collects incoming samples one at a time into a block of
 * `size` samples (`bufferToFill`) and queues each full block on a
 * `FifoStructure`.  A full block is queued only when the sample after it
 * arrives, and is dropped silently when the queue has no free slot.
 */
module SampleAccumulator {
  import opened Common
  import opened Fifo

  /** What the accumulator holds: write position, block being filled, queued blocks. */
  datatype Accumulator = Accumulator(bufferIndex: int, bufferToFill: Block, queued: seq<Block>)

  /** Every block of the queue holds `n` samples. */
  ghost predicate BlocksOfLength(queue: seq<Block>, n: int)
  {
    forall k :: 0 <= k < |queue| ==> |queue[k]| == n
  }

  ghost predicate Fillable(a: Accumulator)
  {
    0 <= a.bufferIndex <= |a.bufferToFill| && |a.bufferToFill| > 0
  }

  /** `pushNextSampleIntoFifo` on the accumulator's value. */
  function PushNextSample(a: Accumulator, sample: real): (r: Accumulator)
    requires Fillable(a)
    ensures Fillable(r) && |r.bufferToFill| == |a.bufferToFill|
    ensures 1 <= r.bufferIndex
    ensures r.bufferToFill[r.bufferIndex - 1] == sample
    ensures forall k :: 0 <= k < |r.bufferToFill| && k != r.bufferIndex - 1 ==>
              r.bufferToFill[k] == a.bufferToFill[k]
    ensures a.bufferIndex == |a.bufferToFill| ==>
              r.bufferIndex == 1 && r.queued == FifoPush(a.queued, a.bufferToFill)
    ensures a.bufferIndex < |a.bufferToFill| ==>
              r.bufferIndex == a.bufferIndex + 1 && r.queued == a.queued
  {
    var (index, queued) :=
      if a.bufferIndex == |a.bufferToFill| then (0, FifoPush(a.queued, a.bufferToFill))
      else (a.bufferIndex, a.queued);
    Accumulator(index + 1, a.bufferToFill[index := sample], queued)
  }

  /** `update`: the samples pushed one after another, first to last. */
  function Accumulate(a: Accumulator, samples: seq<real>): (r: Accumulator)
    requires Fillable(a)
    ensures Fillable(r) && |r.bufferToFill| == |a.bufferToFill|
    ensures BlocksOfLength(a.queued, |a.bufferToFill|) ==> BlocksOfLength(r.queued, |a.bufferToFill|)
    decreases |samples|
  {
    if samples == [] then a
    else Accumulate(PushNextSample(a, samples[0]), samples[1..])
  }

  /** Feeding samples in two calls leaves the same state, queue included, as one call on both. */
  lemma {:induction false} AccumulateConcat(a: Accumulator, xs: seq<real>, ys: seq<real>)
    requires Fillable(a)
    ensures Accumulate(a, xs + ys) == Accumulate(Accumulate(a, xs), ys)
    decreases |xs|
  {
    if xs == [] {
      assert xs + ys == ys;
    } else {
      assert (xs + ys)[0] == xs[0];
      assert (xs + ys)[1..] == xs[1..] + ys;
      AccumulateConcat(PushNextSample(a, xs[0]), xs[1..], ys);
    }
  }

  /** Every write position stays within the block: the index never leaves [1, size] once a sample came in. */
  lemma {:induction false} AccumulateIndexInRange(a: Accumulator, samples: seq<real>)
    requires Fillable(a)
    requires samples != []
    ensures 1 <= Accumulate(a, samples).bufferIndex <= |a.bufferToFill|
    decreases |samples|
  {
    if |samples| > 1 {
      AccumulateIndexInRange(PushNextSample(a, samples[0]), samples[1..]);
    }
  }

  class AudioBufferFifo {
    var prepared: bool
    /** Samples per block; the host's block size at `prepare`. */
    var size: int
    /** The block being filled; `prepare` gives it the new block size. */
    var bufferToFill: Block
    const fifoStructure: FifoStructure
    var bufferIndex: int

    /** The objects the accumulator owns: itself and its FIFO. */
    ghost function Repr(): set<object>
    {
      {this} + fifoStructure.Repr()
    }

    ghost predicate Valid()
      reads Repr()
    {
      && fifoStructure.Valid()
      && size == |bufferToFill|
      && 0 <= bufferIndex <= |bufferToFill|
      && BlocksOfLength(fifoStructure.Contents, size)
    }

    ghost function View(): Accumulator
      reads this, fifoStructure
    {
      Accumulator(bufferIndex, bufferToFill, fifoStructure.Contents)
    }

    constructor ()
      ensures Valid() && fresh(Repr())
      ensures !prepared && size == 0 && bufferIndex == 0 && fifoStructure.Contents == []
    {
      prepared := false;
      size := 0;
      bufferToFill := [];
      fifoStructure := new FifoStructure();
      bufferIndex := 0;
    }

    /**
     * `prepare`: fix the block size, restart the block being filled, and zero
     * every FIFO slot.  `setSize` without keeping content clears the block only
     * when its length changes; at the same length it is left as it was.  The
     * FIFO's read and write positions are not reset, so blocks still queued
     * stay queued (zeroed, of the new size).
     */
    method Prepare(bufferSize: nat)
      requires Valid()
      modifies Repr()
      ensures Valid()
      ensures prepared && size == bufferSize && bufferIndex == 0
      ensures old(|bufferToFill|) == bufferSize ==> bufferToFill == old(bufferToFill)
      ensures old(|bufferToFill|) != bufferSize ==> bufferToFill == Zeros(bufferSize)
      ensures fifoStructure.validStart == old(fifoStructure.validStart)
      ensures fifoStructure.validEnd == old(fifoStructure.validEnd)
      ensures fifoStructure.Contents == seq(|old(fifoStructure.Contents)|, _ => Zeros(bufferSize))
    {
      prepared := false;
      size := bufferSize;
      if |bufferToFill| != bufferSize {
        bufferToFill := Zeros(bufferSize);
      }
      fifoStructure.Prepare(bufferSize);
      bufferIndex := 0;
      prepared := true;
    }

    /**
     * `pushNextSampleIntoFifo`: when the block is full on entry, push a copy of
     * it and restart at slot 0; then write the sample and move on one slot.
     */
    method PushNextSampleIntoFifo(sample: real)
      requires Valid() && |bufferToFill| > 0
      modifies Repr()
      ensures Valid()
      ensures prepared == old(prepared) && size == old(size)
      ensures View() == PushNextSample(old(View()), sample)
    {
      if bufferIndex == |bufferToFill| {
        var pushSucceeded := fifoStructure.Push(bufferToFill);
        bufferIndex := 0;
      }
      bufferToFill := bufferToFill[bufferIndex := sample];
      bufferIndex := bufferIndex + 1;
    }

    /** `update`: push the channel's samples one by one. */
    method Update(samples: seq<real>)
      requires Valid() && prepared && |bufferToFill| > 0
      modifies Repr()
      ensures Valid()
      ensures prepared == old(prepared) && size == old(size)
      ensures View() == Accumulate(old(View()), samples)
    {
      var i := 0;
      while i < |samples|
        invariant 0 <= i <= |samples|
        invariant Valid() && |bufferToFill| == |old(bufferToFill)|
        invariant prepared == old(prepared) && size == old(size)
        invariant View() == Accumulate(old(View()), samples[..i])
      {
        PushNextSampleIntoFifo(samples[i]);
        assert samples[..i + 1] == samples[..i] + [samples[i]];
        AccumulateConcat(old(View()), samples[..i], [samples[i]]);
        assert Accumulate(View(), []) == View();
        i := i + 1;
      }
      assert samples[..|samples|] == samples;
    }

    /** `getNumCompleteBuffersAvailable`. */
    function GetNumCompleteBuffersAvailable(): (n: int)
      reads Repr()
      requires Valid()
      ensures n == |fifoStructure.Contents|
    {
      fifoStructure.GetNumAvailableForReading()
    }

    /** `getAudioBuffer`: pull the oldest full block. */
    method GetAudioBuffer(buf: Block) returns (pulled: bool, held: Block)
      requires Valid()
      modifies fifoStructure
      ensures Valid()
      ensures pulled <==> old(fifoStructure.Contents) != []
      ensures pulled ==> held == old(fifoStructure.Contents)[0]
                         && fifoStructure.Contents == old(fifoStructure.Contents)[1..]
      ensures !pulled ==> held == buf && fifoStructure.Contents == old(fifoStructure.Contents)
    {
      pulled, held := fifoStructure.Pull(buf);
    }
  }
}
