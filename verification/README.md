# ChromaticTuner core in Dafny

This project models the analysis core and the meter logic of the
ChromaticTuner audio plugin (a JUCE plugin written in C++) and proves
properties of that model.

- **Sample FIFO** (`Fifo`, `SampleAccumulator`). Incoming samples are collected
  one at a time into host-sized blocks. Each full block is queued on a ring of
  30 slots that keeps the `juce::AbstractFifo` bookkeeping. One slot is always
  free, so at most 29 blocks can be queued, and a push onto a full ring drops
  the block.
- **Spectral frames** (`Spectrum`, `Processor`). Every queued block is shifted
  into an analysis window of `masterFFTLength` = 8192 samples. The window is
  zero-padded to twice its length, multiplied by the window table and
  transformed in place. The result is queued as a spectral frame on a second
  ring.
- **Peak selection** (`PeakSelection`). `findComplexMaxIndex` scans a frame's
  bins for a strictly louder bin. It asks `fundamentalFrequencyChecker` whether
  a lower bin (a third, fifth or sixth of the index) is the real fundamental.
  `findExactMaxFrequency` reports 0 below the -60 dB threshold. Otherwise it
  refines the chosen bin's frequency from two consecutive frames.
- **Processor state** (`Processor.TunerProcessor`). `prepareToPlay` and
  `processBlock` drain blocks into frames and frames into estimates. The last
  estimate is left in `currentExactF`.
- **Note mapping** (`NoteMapping`). `convertFreqToString` turns a signed
  semitone count into a note name, a sharp flag and cents.
- **Meter and buttons** (`Meter`, `Editor`). The editor keeps 11 meter
  statuses. Chromatic mode lights the rectangle for the cents. Strobe mode
  rotates a lit pattern one place at a time. Two mode buttons switch between
  the modes, and -/+ buttons move the reference A between 430 and 450 Hz.

In the model:

- Objects the source updates in place are classes: the two FIFOs, the sample
  accumulator, the FFT generator, the processor, the meter and the editor.
- The loops of the source are methods. Each is proved against a function that
  states what it computes.
- The properties are proved about those functions:
  - round trips, such as a flat strobe step undoing a sharp one;
  - invariants, such as the reference staying in [430, 450] and the number of
    lit rectangles staying the same;
  - agreement with independent reference definitions, such as the scan's
    running maximum against the earliest loudest bin.

## Model

| member | source | states |
|---|---|---|
| `Fifo.NumReadyOf` | PluginProcessor.h:143 | the number of queued items lies in [0, 29], and reading that many from the read position arrives at the write position |
| `Fifo.Advance` | PluginProcessor.h:117 | `finishedRead` / `finishedWrite` move a position on by n ≤ 29 slots: it stays in the ring, and exactly n items then lie between the old and new position |
| `Fifo.PrepareToRead` | PluginProcessor.h:101 | the two readable runs hold min(wanted, ready) items together; the first starts at the read position, and the second starts at slot 0 only once the first reaches the end of the ring |
| `Fifo.PrepareToWrite` | PluginProcessor.h:71 | the two writable runs hold min(wanted, 29 - ready) items; the first starts at the write position, and the second starts at slot 0 only after the first reaches the end |
| `Fifo.FifoPush` | PluginProcessor.h:69-83 | a push appends the block while fewer than 29 are queued, and otherwise leaves the queue unchanged |
| `Fifo.FifoStructure.constructor` | PluginProcessor.h:145-149 | a new ring is valid and empty |
| `Fifo.FifoStructure.Prepare` | PluginProcessor.h:33-67 | every slot and `emptyBuffer` become zeros of the new length; the read and write positions stay, so queued items stay queued, zeroed |
| `Fifo.FifoStructure.Push` | PluginProcessor.h:69-83 | succeeds exactly when fewer than 29 blocks are queued; the queue becomes `FifoPush` of the old queue; a failed push changes no slot |
| `Fifo.FifoStructure.Pull` | PluginProcessor.h:85-94 | succeeds exactly when something is queued, and then hands out the oldest block and removes it; otherwise the holder and the queue are unchanged |
| `Fifo.FifoStructure.PullTopViewNext` | PluginProcessor.h:96-141 | none queued: returns 0 and changes nothing; one queued: returns 1, hands out that block and `emptyBuffer`, and empties the queue; two or more: returns 2, hands out the oldest two and removes only the oldest |
| `Fifo.FifoStructure.GetNumAvailableForReading` | PluginProcessor.h:143 | the number of queued blocks, at most 29 |
| `SampleAccumulator.PushNextSample` | PluginProcessor.h:205-216 | the sample lands at the write position and nothing else in the block changes; a full block is pushed (through `FifoPush`) before the write position wraps to 0 |
| `SampleAccumulator.Accumulate` | PluginProcessor.h:180-191 | pushing a run of samples keeps the write position in range and every queued block at the block size |
| `SampleAccumulator.AccumulateConcat` | PluginProcessor.h:180-191 | feeding samples in two calls gives the same state as one call on all of them |
| `SampleAccumulator.AccumulateIndexInRange` | PluginProcessor.h:203-215 | once a sample arrived, the write position lies in [1, block size] |
| `SampleAccumulator.AudioBufferFifo.constructor` | PluginProcessor.h:159-162 | not prepared, size 0, empty queue |
| `SampleAccumulator.AudioBufferFifo.Prepare` | PluginProcessor.h:165-178 | prepared with the new size and the write position at 0; `setSize` zeroes the block when its length changes and leaves it as it was at the same length; the ring is prepared to the new size |
| `SampleAccumulator.AudioBufferFifo.PushNextSampleIntoFifo` | PluginProcessor.h:205-216 | the state becomes `PushNextSample` of the old state |
| `SampleAccumulator.AudioBufferFifo.Update` | PluginProcessor.h:180-191 | the state becomes `Accumulate` of the old state over all the samples, in order |
| `SampleAccumulator.AudioBufferFifo.GetNumCompleteBuffersAvailable` | PluginProcessor.h:193 | the number of queued blocks |
| `SampleAccumulator.AudioBufferFifo.GetAudioBuffer` | PluginProcessor.h:196 | pulls the oldest queued block exactly when one is queued |
| `Spectrum.Pow2` | PluginProcessor.h:266 | `1 << order` is at least 1 |
| `Spectrum.MasterFftLengthIsPow2` | PluginProcessor.h:335-337 | `masterFFTLength` is 2 to the power 13 |
| `Spectrum.Transformed` | PluginProcessor.h:259 | the in-place transform leaves at each index what the transform gives there, and keeps the length |
| `Spectrum.Windowed` | PluginProcessor.h:256 | the first `fftSize` values are multiplied by the table and the rest are unchanged |
| `Spectrum.PreTransform` | PluginProcessor.h:247-256 | the buffer is the window scaled by the table, followed by `fftSize` zeros |
| `Spectrum.SpectralFrame` | PluginProcessor.h:245-259 | a frame holds twice as many values as the window |
| `Spectrum.Clear` | PluginProcessor.h:247 | `assign(size, 0)` zeroes the whole buffer |
| `Spectrum.CopyInto` | PluginProcessor.h:252 | the first n values become the source's and the rest are unchanged |
| `Spectrum.MultiplyWithWindowingTable` | PluginProcessor.h:256 | the buffer becomes `Windowed` of its old contents |
| `Spectrum.PerformForwardTransform` | PluginProcessor.h:259 | the buffer becomes `Transformed` of its old contents |
| `Spectrum.FftDataGenerator.GetFftSize` | PluginProcessor.h:266 | the size is 2 to the power of the order |
| `Spectrum.FftDataGenerator.constructor` | PluginProcessor.h:224-239 | the work buffer is `2 * fftSize` zeros, and the frame ring is empty and prepared to that length: its `emptyBuffer` is `2 * fftSize` zeros, which `Valid` keeps from then on |
| `Spectrum.FftDataGenerator.ProduceFftData` | PluginProcessor.h:241-263 | the work buffer becomes the spectral frame of the first `fftSize` samples, and a copy is pushed (dropped when full) |
| `Spectrum.FftDataGenerator.GetNumAvailableFftDataBlocks` | PluginProcessor.h:267 | the number of queued frames |
| `Spectrum.FftDataGenerator.PullTopViewNext` | PluginProcessor.h:265 | the three cases of `FifoStructure.PullTopViewNext` on the frame ring; with one frame queued the second frame handed out is `2 * fftSize` zeros |
| `Spectrum.FftDataGenerator.GetFftData` | PluginProcessor.h:268 | pulls the oldest frame exactly when one is queued |
| `PeakSelection.Magnitude` | PluginProcessor.cpp:250 | a bin's magnitude is never negative |
| `PeakSelection.Within20dB` | PluginProcessor.cpp:309 | the gate fails when the divisor magnitude is 0, and for a positive one it is exactly the test `magI / mag < 10` |
| `PeakSelection.RoundUpEven` | PluginProcessor.cpp:306 | `r += r & 1` gives the least even number not below r |
| `PeakSelection.Quot` | PluginProcessor.cpp:305 | the quotient by 3, 5 or 6 truncates: `h*q <= i < h*q + h` |
| `PeakSelection.QuotOfExactMultiple` | PluginProcessor.cpp:302-306 | when `i % (2h) == 0`, the quotient is already even and at least 2, so the round-up keeps it |
| `PeakSelection.QuotLeavesRoom` | PluginProcessor.cpp:334-354 | a non-zero quotient leaves the root and its neighbours inside [0, i] |
| `PeakSelection.ExactCheck` | PluginProcessor.cpp:302-322 | the root is taken, with its magnitude, exactly when it is within 20 dB of `magI` and louder than both neighbours; otherwise i and `magI` stay |
| `PeakSelection.LowCheck` | PluginProcessor.cpp:323-331 | bin 2 is taken with its magnitude whenever it beats `magI`; otherwise `magI` stays, and DC is taken exactly when it beats `magI` at a bin width above 20 Hz |
| `PeakSelection.RootsCheck` | PluginProcessor.cpp:332-361 | the result is i, root1 or root2; root1 only when it beats root2, passes the 20 dB gate and beats its lower neighbour; root2 only when root1 failed those two tests and root2 passes the gate and beats its upper neighbour |
| `PeakSelection.HarmonicCheck` | PluginProcessor.cpp:295-364 | the chosen index is even and never above i, and the magnitude left is `magI` or that of the chosen bin |
| `PeakSelection.CheckSpecificHarmonic` | PluginProcessor.cpp:295-364 | the statement-level method returns exactly `HarmonicCheck`'s index and new `magI` |
| `PeakSelection.FundamentalCheck` | PluginProcessor.cpp:264-292 | the result is even, at most i, and at most the third-harmonic candidate |
| `PeakSelection.FundamentalFrequencyChecker` | PluginProcessor.cpp:276-290 | the checks for 3, 5 and 6 thread `largestMag` in that order and keep the lowest index: the result equals `FundamentalCheck` |
| `PeakSelection.Scan` | PluginProcessor.cpp:241-258 | after each bin the running index is even and below the bins scanned |
| `PeakSelection.ScanStep` | PluginProcessor.cpp:250-257 | a strictly louder bin becomes the running maximum and moves the index to an even index no later than the bin; any other bin changes nothing |
| `PeakSelection.ComplexMaxIndex` | PluginProcessor.cpp:234-261 | the answer is an even data index in [0, 8190] |
| `PeakSelection.FindComplexMaxIndex` | PluginProcessor.cpp:234-261 | the loop returns `ComplexMaxIndex`, so an even index in [0, 8190] |
| `PeakSelection.ConsiderBin` | PluginProcessor.cpp:250-257 | one loop pass: a strictly louder bin hands the checker the previous maximum and becomes the new maximum |
| `PeakSelection.PeakBin` | PluginProcessor.cpp:246-258 | reference argmax: the earliest bin of greatest magnitude |
| `PeakSelection.ScanFollowsPeakBin` | PluginProcessor.cpp:246-258 | the running maximum ends at the earliest loudest bin's magnitude; the index is DC when that bin is DC, and otherwise the checker's answer for that bin against the maximum just before it |
| `PeakSelection.NoRiseGivesDc` | PluginProcessor.cpp:236-260 | with no bin strictly louder than DC, the answer is the DC index |
| `PeakSelection.ScanMaxIsMaxMagnitude` | PluginProcessor.cpp:241-258 | the running maximum bounds every scanned magnitude and is reached by one |
| `PeakSelection.HarmonicCheckReadsPrefix` | PluginProcessor.cpp:302-360 | the harmonic checks read only data indices below 8192 |
| `PeakSelection.FundamentalCheckReadsPrefix` | PluginProcessor.cpp:276-290 | so does the fundamental checker |
| `PeakSelection.ScanReadsPrefix` | PluginProcessor.cpp:246-258 | so does every prefix of the scan |
| `PeakSelection.ComplexMaxIndexReadsPrefix` | PluginProcessor.cpp:246 | a frame is judged on its first `masterFFTLength` values only |
| `PeakSelection.ExactMaxFrequency` | PluginProcessor.cpp:366-394 | 0 when the chosen bin's magnitude is below `fftThreshold`, and otherwise the refined frequency of that bin, from the two frames, the hop and the sample rate |
| `PeakSelection.FindExactMaxFrequency` | PluginProcessor.cpp:366-394 | the method returns `ExactMaxFrequency` |
| `PeakSelection.QuietFrameGivesZero` | PluginProcessor.cpp:374-378 | a frame with every bin below the threshold reports 0 Hz |
| `Processor.ShiftedIn` | PluginProcessor.cpp:173-184 | shifting a block in keeps the window's length |
| `Processor.ShiftIn` | PluginProcessor.cpp:177-184 | the two copies leave the old window minus its first `size` samples, followed by the block |
| `Processor.FramesFromBlocks` | PluginProcessor.cpp:168-188 | the drain keeps the old frames as a prefix and adds one frame per block up to 29 frames; each new frame holds 2 × 8192 values |
| `Processor.WindowHoldsLatestSamples` | PluginProcessor.cpp:168-188 | after the drain the window holds the latest 8192 samples of the old window followed by all the blocks |
| `Processor.FrameIsSpectrumOfWindow` | PluginProcessor.cpp:168-188 | the frame queued for the j-th block is the spectral frame of the window just after that block |
| `Processor.EstimatesFromFrames` | PluginProcessor.cpp:193-201 | with fewer than 2 frames nothing changes; otherwise one frame is left, and the estimate comes from the last two frames |
| `Processor.TunerProcessor.constructor` | PluginProcessor.h:342-357 | nothing queued, not prepared, `currentExactF` 0 |
| `Processor.TunerProcessor.PrepareToPlay` | PluginProcessor.cpp:95-111 | the sample FIFO is prepared with the block size (its block zeroed only when the size changes); the window is 8192 long and kept when already that size; the held frames are zeros; `currentExactF` is -1 |
| `Processor.TunerProcessor.FeedNextBlock` | PluginProcessor.cpp:171-187 | pulls the oldest block into `dummyBuffer`, shifts it into the window and pushes the window's frame |
| `Processor.TunerProcessor.DrainBlocks` | PluginProcessor.cpp:168-188 | the block queue ends empty, and the window and frames are `FramesFromBlocks` of the old ones |
| `Processor.TunerProcessor.EstimateFromOldestPair` | PluginProcessor.cpp:196-200 | holds the oldest two frames, removes the oldest, and stores their estimate |
| `Processor.TunerProcessor.DrainFrames` | PluginProcessor.cpp:193-201 | the frames, held frames and estimate are `EstimatesFromFrames` of the old ones |
| `Processor.TunerProcessor.ProcessBlock` | PluginProcessor.cpp:145-205 | after the samples are accumulated, all complete blocks become frames and all frame pairs become estimates, as the three specification functions compose; `dummyBuffer` ends as the last block drained, or unchanged when none was |
| `Processor.TunerProcessor.GetCurrentExactF` | PluginProcessor.cpp:396-399 | returns the stored estimate |
| `NoteMapping.MakeNoteData` | PluginEditor.h:19-24 | the record holds the name, cents and flag given |
| `NoteMapping.SharpDefaultsToFalse` | PluginEditor.h:19 | with the flag left out the note is not sharp |
| `NoteMapping.DefaultNoteData` | PluginEditor.h:26-30 | the default note is "-" at 0 cents |
| `NoteMapping.RoundHalfAwayFromZero` | PluginEditor.cpp:103 | `roundf` gives the integer within half a unit, with ties away from zero |
| `NoteMapping.RoundIsNearest` | PluginEditor.cpp:103 | that integer is unique |
| `NoteMapping.RoundShift` | PluginEditor.cpp:103 | rounding commutes with whole shifts that keep the sign |
| `Common.CppRem` | PluginEditor.cpp:111 | C++ `%`: the remainder lies strictly between -b and b and takes the sign of the dividend |
| `NoteMapping.NoteForResidue` | PluginEditor.cpp:111-155 | the name is one of A to G or "#"; "#" comes exactly for residues outside [-11, 11], and is never sharp |
| `NoteMapping.CentsFromNote` | PluginEditor.cpp:104 | the cents lie in [-50, 50] |
| `NoteMapping.ConvertFreqToString` | PluginEditor.cpp:96-157 | frequency 0 gives "", 0 cents, not sharp; otherwise the note of the C++ remainder of the rounded count by 12, with the leftover cents |
| `NoteMapping.DefaultUnreachable` | PluginEditor.cpp:111-155 | the `default` name "#" never comes out |
| `NoteMapping.ResiduesAgree` | PluginEditor.cpp:114-152 | residues r and r - 12 give the same name and flag |
| `NoteMapping.SharpResidues` | PluginEditor.cpp:114-152 | sharp exactly for residues ±1, 4, 6, 9, 11 counted up or down (A#, C#, D#, F#, G#) |
| `NoteMapping.RemainderShift` | PluginEditor.cpp:111 | C++ remainders of counts an octave multiple apart differ by -12, 0 or 12 |
| `NoteMapping.NoteIsPeriodic` | PluginEditor.cpp:111-155 | counts a whole number of octaves apart name the same note |
| `NoteMapping.OctaveInvariant` | PluginEditor.cpp:96-157 | shifting the semitone count by whole octaves, keeping its sign, changes neither note, flag nor cents |
| `NoteMapping.CentsReachBothEnds` | PluginEditor.cpp:103-104 | both -50 and +50 cents occur |
| `NoteMapping.ReferenceIsA` | PluginEditor.cpp:96-157 | the reference itself is A, in tune, not sharp |
| `Meter.Resized` | PluginEditor.h:43-44 | `vector::resize` keeps the first n elements and pads with the fill value |
| `Meter.RotateLeft` | PluginEditor.cpp:226 | the left rotation keeps the length |
| `Meter.RotateRight` | PluginEditor.cpp:221 | the right rotation keeps the length |
| `Meter.RotationsAreInverse` | PluginEditor.cpp:221-226 | the two rotations undo each other |
| `Meter.RotationsKeepLitCount` | PluginEditor.cpp:221-226 | a rotation keeps the multiset of statuses, so the number lit stays the same |
| `Meter.LitIndex` | PluginEditor.cpp:192-207 | with a non-negative tolerance some rectangle in [0, 10] is chosen |
| `Meter.LitIndexMonotone` | PluginEditor.cpp:192-207 | the lit index never decreases as the cents rise |
| `Meter.LitIndexMirror` | PluginEditor.cpp:192-207 | -cents lights the mirror image, 10 - k, of the rectangle for cents |
| `Meter.LitIndexBands` | PluginEditor.cpp:192-207 | at tolerance 1: the centre exactly within ±1 cent; above it 6 up to 10 cents, 7 from 10, 8 from 20, 9 from 30 and 10 from 40; below it the mirror image, 4, 3, 2, 1 and 0 |
| `Meter.OneLit` | PluginEditor.cpp:190-207 | exactly the one chosen status is 1 |
| `Meter.StrobeStart` | PluginEditor.cpp:236-242 | the strobe reset lights 4 and 6 and nothing else |
| `Meter.MeterRectangles.constructor` | PluginEditor.h:36-39 | both vectors start empty |
| `Meter.MeterRectangles.Resize` | PluginEditor.h:41-50 | both vectors have length n, the rectangles are resized, and every status is 0 |
| `Meter.MeterRectangles.Size` | PluginEditor.h:52 | `size()` is the number of rectangles, never negative |
| `Meter.MeterRectangles.ClearStatus` | PluginEditor.cpp:190 | every status becomes 0 and the rectangles are untouched |
| `Editor.ChromaticStatus` | PluginEditor.cpp:187-207 | with a non-negative tolerance exactly one status is 1, the one at `LitIndex` |
| `Editor.ChromaticLightsOnlyItsIndex` | PluginEditor.cpp:190-207 | every other status is 0 |
| `Editor.StrobeStatus` | PluginEditor.cpp:214-228 | a strobe frame permutes the statuses, so as many stay lit; off-beat frames and in-tune cents change nothing |
| `Editor.StrobeStepsUndo` | PluginEditor.cpp:218-227 | a flat advance undoes a sharp one, and vice versa |
| `Editor.ResetStatus` | PluginEditor.cpp:234-242 | a reset leaves 0 lit in chromatic mode and 2 in strobe mode |
| `Editor.ClickRef` | PluginEditor.cpp:371-386 | a click moves the reference by exactly 1 or not at all: - goes down exactly when above 430, + goes up exactly when below 450, and the range is kept |
| `Editor.ClicksStayInRange` | PluginEditor.cpp:371-386 | from 440, or anywhere in range, no run of clicks leaves [430, 450] |
| `Editor.ClicksMoveAtMostOnceEach` | PluginEditor.cpp:371-386 | n clicks move the reference by at most n Hz |
| `Editor.DetectedNoteHasName` | PluginEditor.cpp:96-157 | a non-zero frequency always has a note name, so the meter is set rather than reset |
| `Editor.TunerEditor.constructor` | PluginEditor.cpp:13-31 | 11 rectangles (`size()` is 11); chromatic mode with its toggle on; reference 440; tolerance 1; refresh rate 12; meter reset and counter 0 |
| `Editor.TunerEditor.Resized` | PluginEditor.cpp:51-71 | the meter is reset, the counter is 0, and the toggles match the mode |
| `Editor.TunerEditor.InitializeModeButtons` | PluginEditor.cpp:326-328 | each toggle is on exactly when its mode is current |
| `Editor.TunerEditor.SetMeterRectangleStatus` | PluginEditor.cpp:184-232 | chromatic mode: the statuses become `ChromaticStatus`, so exactly one is lit. Strobe mode: the statuses become `StrobeStatus` of the old ones, so the number lit is kept, and the counter becomes the C++ remainder of counter + 1 |
| `Editor.TunerEditor.ResetMeterRectangleStatus` | PluginEditor.cpp:234-244 | statuses become `ResetStatus` of the mode, and the counter becomes 0 |
| `Editor.TunerEditor.ShowNote` | PluginEditor.cpp:452-459 | a named note sets the meter from its cents: chromatic mode gives `ChromaticStatus` and keeps the counter; strobe mode gives `StrobeStatus` of the old statuses (so the lit count is kept) and the counter becomes the C++ remainder of counter + 1; the empty name gives `ResetStatus` and counter 0; the rectangles are untouched |
| `Editor.TunerEditor.ChromaticClicked` | PluginEditor.cpp:330-337 | only the chromatic toggle is on, chromatic mode, meter reset |
| `Editor.TunerEditor.StrobeClicked` | PluginEditor.cpp:339-346 | only the strobe toggle is on, strobe mode, meter reset with 4 and 6 lit |
| `Editor.TunerEditor.RefMinusClicked` | PluginEditor.cpp:371-378 | the reference becomes `ClickRef(-)` of the old one, within [430, 450] |
| `Editor.TunerEditor.RefPlusClicked` | PluginEditor.cpp:380-386 | the reference becomes `ClickRef(+)` of the old one, within [430, 450] |

### Where the code's behaviour is easy to misread

The model follows the code on these points:

- `pullTopViewNext` with one item queued hands out that item and
  `emptyBuffer`, and it consumes the item (PluginProcessor.h:110-127). The
  single item is not kept or duplicated.
- The sample ring has 30 slots. `juce::AbstractFifo` keeps one free, so the
  30th push onto a ring that was never drained is the first one dropped.
- In `findComplexMaxIndex`, the fundamental checker gets the running maximum
  from before the louder bin (PluginProcessor.cpp:254). It does not get the
  louder bin's own magnitude.
- Cents lie in the closed range [-50, 50], and both ends occur, because
  `roundf` rounds halves away from zero.

## Left out

- Floating point: samples, magnitudes, cents and frequencies are real numbers,
  so float rounding, NaN and infinities are not modelled. The one place they
  matter is the 20 dB gate `magI / mag < 10`. It is stated for non-negative
  magnitudes as `mag > 0 && magI < 10 * mag`, which gives the same answer
  (the float quotient is infinite or NaN at `mag = 0`).
- `std::hypot` / `hypotf` are an arbitrary non-negative function `Hypot`. Every
  property of the peak selection holds whatever that function computes.
- The window table (Blackman-Harris) and the real-only forward FFT are
  constructor arguments: a table and a transform function.
- The phase-vocoder step of `findExactMaxFrequency` (atan2, `std::remainder`,
  `wrapToPi`) is the function parameter `refine`. It receives the two frames,
  the chosen index, the hop `dummyBuffer.getNumSamples()` and the sample rate.
- `Processor.TunerProcessor.ProcessBlock` requires `Prepared()`, which
  excludes host block sizes of 0 and above 8192. At 0 the source writes a
  sample into an empty block (`AudioBufferFifo.Update` requires a non-empty
  block for that reason). Above 8192 the window shift copies a negative count
  and writes past the window. Both are undefined behaviour in C++, so the
  model does not define them.
- `getSampleRate()` is the field `sampleRate`, set by `prepareToPlay`.
- The semitone count `12 * log10(freq / ref) / log10(2)` is the input
  `semitones` of `ConvertFreqToString`.
- `NoteMapping.DefaultNoteData`: the sharp flag is left uninitialised by the
  source, so the model takes it as an argument and states nothing about it.
- The strobe timing `static_cast<int>(refreshRate / (cents / 10))`
  (PluginEditor.cpp:211-213) is the parameter `numFramesUntilAdvance`. That
  float-to-int cast can divide by zero or overflow. The model only requires
  the value to be non-zero, which the C++ `%` needs.
- `referenceFrequency` is a float that only ever holds whole numbers of Hz,
  and the model uses an integer.
- `int` overflow of counters and indices is not modelled. The values stay far
  below 2^31: indices up to 8192 and a counter taken modulo the frame count.
- Atomics (`juce::Atomic`, `std::atomic`) and the audio/UI thread split: each
  operation is one atomic step.
- Only the single (mono) input channel of `processBlock` is modelled. Clearing
  unused output channels is host glue and is left out.
- The overlapping `FloatVectorOperations::copy` that shifts the window is
  modelled as a front-to-back copy. That is what a left shift needs.
- `std::rotate` is modelled on the status sequence, not on iterators.
- Painting, layout and fonts are not modelled: `paint`, the `draw*`
  functions, the geometry of the `initialize*` functions,
  `getReferenceTextWidth` and `customizeLookAndFeel`. `resized` is modelled
  only for the state it changes.
- `timerCallback` and `updateNoteData` are not modelled. They poll
  `getCurrentExactF` and call `convertFreqToString`, both of which are
  modelled.
- JUCE plugin boilerplate (program and state queries, bus layouts,
  `createEditor`, `releaseResources`) is not modelled.
