/**
 * `FifoStructure`: a bounded single-producer/single-consumer queue of
 * value-copied blocks kept in a ring of `BufferCapacity` slots.  The slot
 * bookkeeping is that of `juce::AbstractFifo`: two positions `validStart`
 * (next item to read) and `validEnd` (next slot to write), one slot always
 * left free so that a full ring is told apart from an empty one.
 */
module Fifo {
  import opened Common

  /** Number of slots in the ring. */
  const BufferCapacity := 30
  /** Items the ring can hold at once: AbstractFifo keeps one slot free. */
  const UsableCapacity := BufferCapacity - 1

  /** A position that ran past the end of the ring at most once, brought back into it. */
  function Wrap(x: int): int
  {
    if x < BufferCapacity then x else x - BufferCapacity
  }

  /** Number of items ready for reading between the two positions (`getNumReady`). */
  function NumReadyOf(validStart: int, validEnd: int): (n: int)
    requires 0 <= validStart < BufferCapacity && 0 <= validEnd < BufferCapacity
    ensures 0 <= n <= UsableCapacity
    ensures Wrap(validStart + n) == validEnd
  {
    if validEnd >= validStart then validEnd - validStart
    else BufferCapacity - (validStart - validEnd)
  }

  /**
   * A position moved on by `n` slots (`finishedRead` / `finishedWrite`): it
   * stays in the ring, and `n` items then lie between the old and new position.
   */
  function Advance(pos: int, n: int): (r: int)
    ensures 0 <= pos < BufferCapacity && 0 <= n <= UsableCapacity ==>
              0 <= r < BufferCapacity && NumReadyOf(pos, r) == n
  {
    if pos + n >= BufferCapacity then pos + n - BufferCapacity else pos + n
  }

  /**
   * The one or two contiguous runs of slots that `prepareToRead` or
   * `prepareToWrite` hand out: `blockSize1` slots from `startIndex1`, then
   * `blockSize2` slots from `startIndex2` once the first run reaches the end.
   */
  datatype Region = Region(startIndex1: int, blockSize1: int, startIndex2: int, blockSize2: int)

  /** `AbstractFifo::prepareToRead(numWanted, ...)`. */
  function PrepareToRead(validStart: int, validEnd: int, numWanted: int): (r: Region)
    requires 0 <= validStart < BufferCapacity && 0 <= validEnd < BufferCapacity
    requires numWanted >= 0
    ensures r.blockSize1 >= 0 && r.blockSize2 >= 0
    ensures r.blockSize1 + r.blockSize2 == Min(numWanted, NumReadyOf(validStart, validEnd))
    ensures r.blockSize1 > 0 ==>
              r.startIndex1 == validStart && validStart + r.blockSize1 <= BufferCapacity
    ensures r.blockSize2 > 0 ==>
              r.startIndex2 == 0 && validStart + r.blockSize1 == BufferCapacity
  {
    var n := Min(numWanted, NumReadyOf(validStart, validEnd));
    if n <= 0 then Region(0, 0, 0, 0)
    else
      var size1 := Min(BufferCapacity - validStart, n);
      var size2 := if n - size1 <= 0 then 0 else Min(n - size1, validEnd);
      Region(validStart, size1, 0, size2)
  }

  /** `AbstractFifo::prepareToWrite(numToWrite, ...)`. */
  function PrepareToWrite(validStart: int, validEnd: int, numToWrite: int): (r: Region)
    requires 0 <= validStart < BufferCapacity && 0 <= validEnd < BufferCapacity
    requires numToWrite >= 0
    ensures r.blockSize1 >= 0 && r.blockSize2 >= 0
    ensures r.blockSize1 + r.blockSize2
            == Min(numToWrite, UsableCapacity - NumReadyOf(validStart, validEnd))
    ensures r.blockSize1 > 0 ==>
              r.startIndex1 == validEnd && validEnd + r.blockSize1 <= BufferCapacity
    ensures r.blockSize2 > 0 ==>
              r.startIndex2 == 0 && validEnd + r.blockSize1 == BufferCapacity
  {
    var freeSpace := if validEnd >= validStart then BufferCapacity - (validEnd - validStart)
                     else validStart - validEnd;
    var n := Min(numToWrite, freeSpace - 1);
    if n <= 0 then Region(0, 0, 0, 0)
    else
      var size1 := Min(BufferCapacity - validEnd, n);
      var size2 := if n - size1 <= 0 then 0 else Min(n - size1, validStart);
      Region(validEnd, size1, 0, size2)
  }

  /** The queue after a push seen from outside: the block is appended, or dropped when full. */
  function FifoPush(queue: seq<Block>, b: Block): (q: seq<Block>)
    ensures |queue| < UsableCapacity ==> q == queue + [b]
    ensures |queue| >= UsableCapacity ==> q == queue
  {
    if |queue| < UsableCapacity then queue + [b] else queue
  }

  class FifoStructure {
    /** The ring's slots, one block per slot. */
    const bufferArray: array<Block>
    var validStart: int
    var validEnd: int
    /** The all-zero block handed out as the second item when only one is ready. */
    var emptyBuffer: Block

    /** The queued blocks, oldest first. */
    ghost var Contents: seq<Block>

    /** The objects the structure owns. */
    ghost function Repr(): set<object>
    {
      {this, bufferArray}
    }

    ghost predicate Valid()
      reads Repr()
    {
      && bufferArray.Length == BufferCapacity
      && 0 <= validStart < BufferCapacity
      && 0 <= validEnd < BufferCapacity
      && |Contents| == NumReadyOf(validStart, validEnd)
      && forall k :: 0 <= k < |Contents| ==> Contents[k] == bufferArray[Wrap(validStart + k)]
    }

    /** The default-constructed structure: empty slots and positions at 0. */
    constructor ()
      ensures Valid() && fresh(Repr())
      ensures Contents == [] && emptyBuffer == []
    {
      bufferArray := new Block[BufferCapacity](_ => []);
      validStart, validEnd := 0, 0;
      emptyBuffer := [];
      Contents := [];
    }

    /**
     * Both `prepare` overloads: every slot and `emptyBuffer` become `numSamples`
     * zeros.  The read and write positions are left as they are, so items still
     * queued stay queued, now zeroed.
     */
    method Prepare(numSamples: nat)
      requires Valid()
      modifies Repr()
      ensures Valid()
      ensures validStart == old(validStart) && validEnd == old(validEnd)
      ensures Contents == seq(|old(Contents)|, _ => Zeros(numSamples))
      ensures emptyBuffer == Zeros(numSamples)
      ensures forall j :: 0 <= j < bufferArray.Length ==> bufferArray[j] == Zeros(numSamples)
    {
      var j := 0;
      while j < bufferArray.Length
        modifies bufferArray
        invariant 0 <= j <= bufferArray.Length
        invariant forall k :: 0 <= k < j ==> bufferArray[k] == Zeros(numSamples)
      {
        bufferArray[j] := Zeros(numSamples);
        j := j + 1;
      }
      emptyBuffer := Zeros(numSamples);
      Contents := seq(|Contents|, _ => Zeros(numSamples));
    }

    /** `push`: copy the block into the next free slot, or fail and change nothing when full. */
    method Push(bufferToInsert: Block) returns (pushed: bool)
      requires Valid()
      modifies Repr()
      ensures Valid()
      ensures pushed <==> |old(Contents)| < UsableCapacity
      ensures Contents == FifoPush(old(Contents), bufferToInsert)
      ensures emptyBuffer == old(emptyBuffer) && validStart == old(validStart)
      ensures !pushed ==> validEnd == old(validEnd) && bufferArray[..] == old(bufferArray[..])
    {
      var write := PrepareToWrite(validStart, validEnd, 1);
      if write.blockSize1 > 0 {
        bufferArray[write.startIndex1] := bufferToInsert;
        pushed := true;
      } else {
        pushed := false;
      }
      // the scoped writer's destructor calls finishedWrite(blockSize1 + blockSize2)
      validEnd := Advance(validEnd, write.blockSize1 + write.blockSize2);
      if pushed {
        Contents := Contents + [bufferToInsert];
      }
    }

    /**
     * `pull`: hand out the oldest block and drop it from the queue; when the
     * queue is empty, fail and leave the caller's buffer as it was.
     */
    method Pull(bufferToHold: Block) returns (pulled: bool, held: Block)
      requires Valid()
      modifies this
      ensures Valid() && emptyBuffer == old(emptyBuffer)
      ensures pulled <==> old(Contents) != []
      ensures pulled ==> held == old(Contents)[0] && Contents == old(Contents)[1..]
      ensures !pulled ==> held == bufferToHold && Contents == old(Contents)
      ensures validEnd == old(validEnd)
    {
      var read := PrepareToRead(validStart, validEnd, 1);
      held := bufferToHold;
      if read.blockSize1 > 0 {
        held := bufferArray[read.startIndex1];
        pulled := true;
      } else {
        pulled := false;
      }
      // the scoped reader's destructor calls finishedRead(blockSize1 + blockSize2)
      validStart := Advance(validStart, read.blockSize1 + read.blockSize2);
      if pulled {
        Contents := Contents[1..];
      }
    }

    /**
     * `pullTopViewNext`: look at the two oldest blocks and consume only the
     * oldest.  Returns how many blocks were seen: 2 (also when the pair wraps
     * round the end of the ring), 1 (the second output is then `emptyBuffer`
     * and the single block is consumed), or 0 (nothing changes).
     */
    method PullTopViewNext(bufferToHold1: Block, bufferToHold2: Block)
      returns (numSeen: int, held1: Block, held2: Block)
      requires Valid()
      modifies this
      ensures Valid() && emptyBuffer == old(emptyBuffer)
      ensures validEnd == old(validEnd)
      ensures |old(Contents)| == 0 ==>
                numSeen == 0 && held1 == bufferToHold1 && held2 == bufferToHold2
                && Contents == old(Contents)
      ensures |old(Contents)| == 1 ==>
                numSeen == 1 && held1 == old(Contents)[0] && held2 == emptyBuffer
                && Contents == []
      ensures |old(Contents)| >= 2 ==>
                numSeen == 2 && held1 == old(Contents)[0] && held2 == old(Contents)[1]
                && Contents == old(Contents)[1..]
    {
      var read := PrepareToRead(validStart, validEnd, 2);
      held1, held2 := bufferToHold1, bufferToHold2;
      if read.blockSize1 == 0 {
        numSeen := 0;
      } else if read.blockSize1 == 1 {
        held1 := bufferArray[read.startIndex1];
        if read.blockSize2 > 0 {
          // the pair wraps round: the second item sits at the start of the ring
          held2 := bufferArray[read.startIndex2];
          validStart := Advance(validStart, 1);
          numSeen := 2;
        } else {
          held2 := emptyBuffer;
          validStart := Advance(validStart, 1);
          numSeen := 1;
        }
        Contents := Contents[1..];
      } else {
        // blockSize1 > 1; the source's trailing `return 0` cannot be reached,
        // since prepareToRead never hands out a negative size
        held1 := bufferArray[read.startIndex1];
        held2 := bufferArray[read.startIndex1 + 1];
        validStart := Advance(validStart, 1);
        numSeen := 2;
        Contents := Contents[1..];
      }
    }

    /** `getNumAvailableForReading`. */
    function GetNumAvailableForReading(): (n: int)
      reads Repr()
      requires Valid()
      ensures n == |Contents| && n <= UsableCapacity
    {
      NumReadyOf(validStart, validEnd)
    }
  }
}
