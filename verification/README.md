# hydrasdr-rs: a verified model of the receive path

This Dafny project models the receive side of the hydrasdr-rs driver for the HydraSDR RFOne: the
streaming signal processing that turns ADC bytes into IQ samples, the persistent USB queue that
feeds it, the receiver and session lifecycle around both, and the way configuration is executed and
committed. `dafny verify dfyconfig.toml` checks everything.

The project follows the structure of the driver.

- `Numbers`, `Decimation`, `Baseband`, `Converter` model `src/converter.rs`. The converter is
  written once, over an arbitrary number type `F` whose operations are uninterpreted. Rings, delay
  line, running average and scratch buffers are updated in place as in the source, and the objects
  are proved to compute pure functions of their whole input history. As no law of arithmetic is
  used, these results hold bit for bit of `f32`.
- `RealConverter`, `RealBaseband`, `RealBounds`, `ShippedKernels` instantiate the same functions
  with `real` and prove what the filters compute and how large values can get, for every kernel of
  half-band shape; the shipped kernels are then shown to have it. `RealStream` puts this together from
  bytes to samples, and `RealWitness` runs ADC codes through it.
- `Processing`, `Queue`, `Receiver`, `NextBlock` model `src/rx`. The queue's operations are functions on
  a value and an object that refines them; runs are sequences of operations. `Restart` runs the receiver
  object from a stop to the read after the next start.
- `Session` and `Lifecycle` model `src/session.rs` and the receiver protocol: first the objects,
  then the whole driver as a step relation with one step per control transfer.
- `MaybeFuture` models `src/maybe_future.rs`: operation trees, their blocking and their polled
  execution, and the mutable futures.
- `Protocol` and `Configuration` model `src/protocol.rs`, `src/config.rs` and `src/device.rs`.
- `Errors` holds the shared result types.

## How the environment is modelled

- The bulk endpoint is a first-in first-out list of submitted buffers. Which transfer completes
  when, with what status, length and data, is a parameter; a time-out is a silent endpoint. A newly
  claimed endpoint has at most sixteen transfers pending, of the size the transfer format calls for.
- A control transfer ends completed, failed or cancelled, as a parameter says. A failed or
  cancelled transfer may or may not have taken effect by the time it ends. A response that the
  driver rejects counts as a failed transfer.
- A cancelled operation is one whose future is dropped at an await. An operation that is never
  polled is simply not performed.
- Fields marked as instrumentation (`epoch`, `stamp`, `liveDiscards`, `staleTaken`, `retiredDiscards`,
  `retiredStale`, `log`) are read by no code but their own; they make the statements possible.

## Where code and expectation differ

In `process_hb33` and `process_hb17` both accumulations of a group run after all four stores, and
the ring has one slot fewer than the kernel has taps. The second output of each group is the full
half-band sum. The first output is not: its oldest weighted tap sees a sample that is newer than
the output. The model keeps the code as it is. `StageEquations` gives both outputs exactly,
`FirstOutputPlainIff` says exactly when the first one is the plain sum, and
`ShippedConverterDiffers` gives ADC codes on which it is not. It is also why conversion depends on the
four-sample phase, which the converter is proved to keep.

The documentation of `set_packing` (`src/device.rs:238-241`) says that an active raw stream adopts the
new format on its next block. A `next_block` future that has begun to restart does not read the
settings again, so a packing changed between two of its polls is not adopted by the block it
delivers, but by the one after. `BlockSize` says exactly which packing a block has and when it is the
present one, and `PackingChangedBack` gives a run in which it is not.

The loop of `IqProcessor::process` reports an "incomplete conversion group". That error is proved
unreachable: every transfer size is a whole number of groups at every decimation.

## Model

| member | source | states |
|---|---|---|
| `Rings.MirrorsPush` | src/converter.rs:308-310 | a push into both copies of a mirrored ring appends one value to the history it represents, for rings and histories of any length |
| `Decimation.DecimationStage.constructor` | src/converter.rs:359-370 | a new stage has the filter of its position and an empty history |
| `Decimation.DecimationStage.StoreIq` | src/converter.rs:452-458 | a store into both copies of a ring slot keeps the mirrored ring an exact image of the newest samples of the whole history |
| `Decimation.DecimationStage.AccHb` | src/converter.rs:460-496 | the accumulation starts from a slot other than 0, so the unsigned `idx + size - (size + 1)`, evaluated from left to right, never underflows; and it reads the ring in bounds |
| `Decimation.DecimationStage.StoreFour` | src/converter.rs:406-418 | the four stores of a group, and the slots that its two accumulations start from: the phase keeps both away from slot 0 |
| `Decimation.DecimationStage.StepGroup` | src/converter.rs:405-423 | one group of four stores and, after them, two accumulations emits exactly what the history function says, and keeps the write index on a multiple of four |
| `Decimation.DecimationStage.Process` | src/converter.rs:372-374 | all whole groups of the source are consumed; the output is exactly what the history function gains from them |
| `Decimation.DecimationStage.ProcessToComplex` | src/converter.rs:376-393 | the output slice is filled exactly; with an odd slice the one sample too many is returned, and is the next sample of the stream |
| `Decimation.ReadsWindow` | src/converter.rs:420-422 | the slice an accumulation reads is one ring length of history, with the values stored since the base slot was written in place of the oldest ones |
| `Decimation.FirIndexInRange` | src/converter.rs:402-424 | a write index that rests on a multiple of four has room for four stores |
| `Decimation.StageOutPrefix` | src/converter.rs:395-450 | causality of a stage: more input never changes outputs already emitted |
| `Decimation.StageOutAt` | src/converter.rs:402-450 | closed form: the g-th group of outputs is determined by the first g + 1 groups of inputs |
| `Baseband.WordsOfEncode` | src/converter.rs:284-288 | decoding the little-endian bytes of any codes, low byte first, gives back these codes |
| `Baseband.EncodeOfWords` | src/converter.rs:284-288 | and whole words of bytes are the little-endian bytes of the codes they decode to |
| `Baseband.BasebandPrefix` | src/converter.rs:250-305 | causality of the front end |
| `Baseband.FrontEndStep` | src/converter.rs:284-305 | four more codes push two values each into the filter and the delay line, with the alternating signs of the Fs/4 shift |
| `Baseband.TrackerStep` | src/converter.rs:290-297 | the four sequential updates of the running average are the DC-removed samples of the whole stream |
| `Baseband.OutLocal` | src/converter.rs:299-304 | an output depends on values pushed no later than itself, so the order of the four pushes does not matter |
| `Converter.Float32IqConverter.constructor` | src/converter.rs:144-162 | a new converter is valid, with an empty history |
| `Converter.Float32IqConverter.RemoveDc` | src/converter.rs:290-297 | DC removal of four codes in sequence yields the DC-removed samples of the whole stream |
| `Converter.Float32IqConverter.PushFour` | src/converter.rs:299-304 | the four pushes yield the two complex values that belong to them |
| `Converter.Float32IqConverter.Accumulate` | src/converter.rs:312-317 | the folded loop reads the newest 24 values of the ring, in bounds |
| `Converter.Float32IqConverter.PushFir` | src/converter.rs:307-321 | the folded accumulation over the mirrored 512-slot ring is the filter output for the whole pushed history, for a history of any length |
| `Converter.Float32IqConverter.PushDelay` | src/converter.rs:323-331 | the 12-slot delay line returns the value pushed twelve pushes ago, zero before the first twelve |
| `Converter.Float32IqConverter.ConvertAdcChunk` | src/converter.rs:284-305 | eight bytes yield exactly the two complex values that the whole-stream front end gains from the four little-endian codes in them (`WordsOfEncode`) |
| `Converter.Float32IqConverter.ProcessBasebandToScratch` | src/converter.rs:250-258 | the first scratch buffer holds what the front end gains from the chunk, and feeds the first stage |
| `Converter.Float32IqConverter.ProcessBasebandToComplex` | src/converter.rs:260-282 | without decimation the output slice and the carried sample are exactly what the front end gains |
| `Converter.Float32IqConverter.ProcessIntermediateDecimationStages` | src/converter.rs:333-348 | ping-ponging between the scratch buffers passes every stage all that the previous stage emits, a multiple of eight values each time |
| `Converter.Float32IqConverter.StepStage` | src/converter.rs:335-346 | one stage from one scratch buffer into the other passes on exactly what that stage emits |
| `Converter.Float32IqConverter.ProcessGroups` | src/converter.rs:222-240 | a whole number of groups, decimated or not, fills its part of the slice exactly |
| `Converter.Float32IqConverter.ProcessU16leToF32iqSlice` | src/converter.rs:194-248 | for any bytes, any slice size and every supported decimation: consumed, written and carried-over counts are exact, and the samples written plus the carried one are exactly what one whole-stream conversion gains from the bytes consumed |
| `Converter.Float32IqConverter.ProcessU16le` | src/converter.rs:165-186 | with as much room as the bytes yield, everything is consumed, everything is written, and nothing is carried over, as its debug assertions say |
| `Converter.PairsToConvert` | src/converter.rs:208-213 | the rounding of input and output sizes yields the largest whole number of groups that the input holds and the output needs |
| `Converter.PipelinePrefix` | src/converter.rs:194-248 | causality of the whole converter: more input only appends output |
| `Converter.Float32IqConverter.EmittedIsPipeline` | src/converter.rs:228-239 | what the last stage has emitted is the whole-stream conversion of all codes consumed |
| `RealConverter.AccIsConvolve` | src/converter.rs:460-496 | over the reals, each unrolled and folded accumulation is the full convolution with its 33-tap or 17-tap kernel |
| `RealConverter.ConvolveFolded` | src/converter.rs:462-494 | a half-band convolution of any length is its centre tap plus the folded sum of the odd taps |
| `RealConverter.StageEquations` | src/converter.rs:402-450 | for every group of an unbounded run: the second output is the full half-band sum although the ring is one slot too short; the first is that sum with its age-31 (age-15) sample replaced by the next input |
| `RealConverter.FirstOutputDeviation` | src/converter.rs:420-421 | the first output differs from the plain half-band sum by exactly the oldest weighted tap times the difference of those two samples |
| `RealConverter.FirstOutputPlainIff` | src/converter.rs:402-450 | so plain FIR equality holds for a first output if and only if those two input samples agree |
| `RealConverter.FirstOutputDiffers` | src/converter.rs:402-450 | a concrete stage input, for either filter, on which plain FIR equality fails |
| `RealBaseband.ShiftedIs` | src/converter.rs:299-302 | multiplying the DC-removed signal by -(j^n) makes even samples real and odd samples imaginary; these are the values the code pushes into the filter and (halved) the delay line |
| `RealBaseband.BasebandAt` | src/converter.rs:250-305 | the m-th output is the filter and the delay line looked at after m + 1 pushes, with zero history |
| `RealBaseband.OutIIsSum` | src/converter.rs:312-317 | the twelve accumulation rounds are the sum of the folded products |
| `RealBaseband.DirectReIsBranch` | src/converter.rs:145-148 | in the real part only the even taps, the ones the code keeps, contribute |
| `RealBaseband.DirectImIsDelayed` | src/converter.rs:301-304 | in the imaginary part only the centre tap contributes: a delay of twelve pushes and a factor of one half |
| `RealBaseband.PolyphaseIsDirect` | src/converter.rs:284-331 | the m-th undecimated output is exactly the 47-tap half-band filter applied to the shifted DC-removed signal at sample 2m, with zero history |
| `RealStream.ConvertBytes` | src/converter.rs:165-248 | from bytes to samples: a new converter, given the little-endian bytes of any whole groups of codes, writes the whole-stream conversion of exactly these codes, at every decimation |
| `RealStream.ConvertUndecimated` | src/converter.rs:165-331 | end to end without decimation: the m-th sample written for the bytes of the codes `s` is the 47-tap half-band filter applied to the shifted DC-removed codes at 2m |
| `RealStream.PipelineEquations` | src/converter.rs:357-450 | end to end with decimation: stages one to three are 33-tap half-band sums over the stage before, stages four to six 17-tap ones; in the first output of each group the oldest weighted tap sees the sample that comes next |
| `RealBounds.AvgBound` | src/converter.rs:290-297 | the running average never leaves [-1, 1], for streams of any length |
| `RealBounds.ResidualBound` | src/converter.rs:290-297 | every DC-removed sample is within 2 |
| `RealBounds.AvgIsExponential` | src/converter.rs:290-297 | the running average is the exponential average with factor 0.99 of all codes so far, a code being its low twelve bits scaled to [-1, 1) |
| `RealBounds.ResidualIs` | src/converter.rs:290-297 | so the n-th DC-removed sample is the value of its code less that average of the codes before it |
| `RealBounds.ConstantCodeDecays` | src/converter.rs:284-297 | on a constant code of value a the n-th DC-removed sample is exactly a times 0.99^n |
| `RealBounds.FrontEndBound` | src/converter.rs:284-331 | |I| is at most twice the L1 norm of the 24 filter taps and |Q| at most 1 |
| `RealBounds.StageBound` | src/converter.rs:402-496 | a stage multiplies the bound of a component by at most the L1 norm of its kernel, first outputs included |
| `RealBounds.PipelineBound` | src/converter.rs:194-248 | output of a stream of any length stays within a limit that depends on the kernels only |
| `ShippedKernels.ShippedKernelsAreHalfBand` | src/converter.rs:19-123 | the three shipped kernels have the symmetry and the zero pattern assumed above, and non-zero oldest weighted taps |
| `RealWitness.SpikeThirdSample` | src/converter.rs:284-331 | eight ADC codes for which the third I sample is the outermost tap of the front-end filter, and the ones before it are zero |
| `RealWitness.SpikeDiffers` | src/converter.rs:402-450 | on these codes, at decimation by two, the first output of the whole converter is not the plain half-band sum, for any half-band kernels whose outermost weighted taps do not vanish |
| `RealWitness.ShippedConverterDiffers` | src/converter.rs:19-123 | and so with the kernels the converter ships with |
| `Processing.IqProcessor.constructor` | src/rx/processing.rs:22-27 | a new processor is ready for every decimation, with nothing consumed or emitted |
| `Processing.TransferIsWholeGroups` | src/rx/queue.rs:15-20 | both transfer sizes are whole numbers of conversion groups at every decimation |
| `Processing.RoundProgress` | src/rx/processing.rs:54-72 | a round of the loop consumes at least one group, stops on a group boundary, and leaves input only when the output is full |
| `Processing.IqProcessor.TakePending` | src/rx/processing.rs:45-49 | the carried sample is handed out first, once |
| `Processing.IqProcessor.ConvertSome` | src/rx/processing.rs:54-61 | one call of the converter appends its bytes to those consumed and its samples to those emitted, with the carried one kept |
| `Processing.IqProcessor.Round` | src/rx/processing.rs:50-73 | one round of the loop: the "incomplete conversion group" error is unreachable, and a used-up buffer goes back to the endpoint |
| `Processing.IqProcessor.ConvertBuffer` | src/rx/processing.rs:50-73 | the loop ends with the output full or the buffer used up |
| `Processing.IqProcessor.Process` | src/rx/processing.rs:37-75 | the samples handed out continue the stream; exactly the bytes of the current buffer between two offsets are consumed; a non-empty slice gets at least one sample if anything is left over |
| `Processing.IqProcessor.Reset` | src/rx/processing.rs:28-32 | after a reset the processor is ready for every decimation, with nothing consumed or emitted |
| `Processing.ChunkingInvariance` | src/rx/processing.rs:37-75 | whatever the buffers, slice sizes and calls were, equal bytes give equal samples, and a prefix of the bytes gives a prefix of the samples, bit for bit |
| `RxQueue.Queue.constructor` | src/rx/queue.rs:34-52 | pending transfers plus allocated buffers are sixteen |
| `RxQueue.Queue.Initialize` | src/rx/queue.rs:54-67 | all buffers are submitted in order, only after the endpoint has been cleared |
| `RxQueue.Queue.Submit` | src/rx/queue.rs:61-63 | a submitted buffer is the last one pending |
| `RxQueue.Queue.ReleaseCurrent` | src/rx/queue.rs:72-79 | the current buffer goes to the end of the pending list of an open endpoint |
| `RxQueue.Queue.DiscardCurrent` | src/rx/queue.rs:80-85 | a current buffer counts as dropped once more and is released |
| `RxQueue.Queue.Pause` | src/rx/queue.rs:86-92 | everything pending, the current buffer included, becomes stale |
| `RxQueue.Queue.Close` | src/rx/queue.rs:93-101 | the queue gives up its endpoint and all buffers and returns its counters |
| `RxQueue.Queue.Accept` | src/rx/queue.rs:104-141 | a stale completion is resubmitted and counted; a failed or short one closes the queue; a whole one becomes current |
| `RxQueue.AcceptVerdict` | src/rx/queue.rs:104-141 | what becomes of a completion: one of a buffer submitted before the latest pause is discarded whatever it says, and its buffer resubmitted; of any other, a failed status closes the queue with `Transfer` even if the length is right, and a wrong length with `Protocol`; all counters are exact |
| `RxQueue.Queue.PollFill` | src/rx/queue.rs:143-182 | the fill loop refines the recursive fill and takes exactly as many completions |
| `RxQueue.Queue.WaitFill` | src/rx/queue.rs:162-182 | the blocking loop refines the same fill, with a time-out as a silent endpoint |
| `RxQueue.Queue.Block` | src/rx/queue.rs:184-202 | the block has the size of its transfer format and the matching sample and drop counts; without a current buffer it is an error |
| `RxQueue.FillLoopKeeps` | src/rx/queue.rs:143-182 | a fill terminates, takes at most `discard_remaining + 1` completions, succeeds exactly with a current buffer and fails exactly by closing; it counts every completion once as received, and as processed or dropped, and the discarded ones against `discard_remaining` |
| `RxQueue.AcceptKeepsInv` | src/rx/queue.rs:104-141 | a completion is only asked for with all sixteen buffers pending, and accepting it keeps the queue invariant |
| `RxQueue.FillDelivers` | src/rx/queue.rs:143-160 | after a pause a fill discards exactly the stale completions, whatever they are, and then delivers the data of the first fresh one; all four counters are exact |
| `RxQueue.FillEnds` | src/rx/queue.rs:143-160 | how a fill ends, by the completions alone: it waits exactly while one of the stale ones or the next is missing; otherwise the next one decides between a buffer, `Transfer` and `Protocol` |
| `RxQueue.StepKeepsInv` | src/rx/queue.rs:54-182 | every operation, in any order, keeps buffer conservation, matching buffer sizes, epochs and statistics conservation; counters never fall |
| `RxQueue.PauseKeepsInv` | src/rx/queue.rs:86-92 | a pause makes exactly the buffers submitted so far stale; what was pending stays pending, in its order |
| `RxQueue.DiscardKeepsInv` | src/rx/queue.rs:80-85 | giving up the current buffer counts one drop and resubmits it; without one nothing changes |
| `RxQueue.NewQueueInv` | src/rx/queue.rs:34-52 | a new queue on an endpoint with at most sixteen pending transfers starts in the invariant |
| `RxQueue.RestartSafety` | src/rx/queue.rs:86-182 | over all runs: no buffer submitted before a pause is ever current after it, and the first `discard_remaining` pending buffers are exactly those submitted before the latest pause |
| `Receiving.Receiver.constructor` | src/rx/receiver.rs:32-39 | a new receiver is stopped, with no queue and no counts |
| `Receiving.Receiver.StatsConserved` | src/rx/receiver.rs:40-44 | over the life of a receiver, whatever queues have come and gone: the statistics shown are the fieldwise sums; received plus live discards equals processed plus dropped; and the discarded-on-restart count is exactly the number of completions taken of buffers submitted before the latest stop |
| `Receiving.Receiver.RetireStream` | src/rx/receiver.rs:45-50 | retiring moves the counters to the receiver: the statistics shown do not change |
| `Receiving.Receiver.RetireQueue` | src/rx/receiver.rs:46-48 | folding the counters of the queue into the totals changes nothing that is shown |
| `Receiving.Receiver.AdoptSettings` | src/rx/receiver.rs:72-78 | a queue kept under a new decimation drops its current buffer and restarts the sample stream; otherwise the stream is untouched |
| `Receiving.Receiver.PrepareStream` | src/rx/receiver.rs:67-78 | the stream is retired; or the queue is kept, the same object with everything in it, and given the new settings |
| `Receiving.AdoptedIs` | src/rx/receiver.rs:72-78 | a queue given new settings keeps every pending buffer in its order and its discard count; only a changed decimation gives up the current buffer, counted as one drop |
| `Receiving.Receiver.OpenQueue` | src/rx/receiver.rs:89-95 | a new queue on a newly claimed endpoint starts in the queue invariant |
| `Receiving.Receiver.StartAttempt` | src/rx/receiver.rs:79-106 | which commands one attempt sends, and how it ends, for every way its awaits can end |
| `Receiving.Receiver.Settle` | src/rx/receiver.rs:108-118 | the end of an attempt: running, failed with a receiver-off, or just dropped |
| `Receiving.Receiver.StartPipeline` | src/rx/receiver.rs:67-119 | Running is reached exactly if receiver-off, the endpoint, receiver-on and clearing the endpoint all succeed, as far as they are needed; a failed step is followed by one more receiver-off; a cancelled one leaves CleanupRequired; Running implies an initialized open queue with the settings read when the attempt began |
| `Receiving.RunsIfAllComplete` | src/rx/receiver.rs:88-118 | which outcomes of its awaits make an attempt succeed |
| `Receiving.PipelineIs` | src/rx/receiver.rs:67-119 | the commands and the result of a start attempt without its stages: receiver-off exactly for a new queue, receiver-on exactly if nothing failed before, one more receiver-off exactly after a failure, nothing after a cancellation |
| `Receiving.Receiver.Start` | src/rx/receiver.rs:51-65 | start does nothing when running and is refused as busy when clean-up is required. A stopped receiver whose queue is initialized, open and of the wanted packing keeps that very queue: pending buffers, stamps, epoch and discard count stay as they were, and the current buffer goes exactly if the decimation has changed. Any other is given a new queue |
| `Restarts.StopAndStart` | src/rx/receiver.rs:51-142 | a completed stop and a start with the same packing, on the receiver object: all sixteen buffers are still pending, those that were in their old order, and all sixteen completions are to be discarded |
| `Restarts.RestartAndRead` | src/rx/receiver.rs:51-264 | restart safety from stop to read: until the sixteen stale completions and one more have come, the read has nothing; then the bytes read are exactly those of the seventeenth, or the read fails as that one says |
| `Restarts.RestartAndPoll` | src/rx/receiver.rs:51-197 | and the same for raw blocks |
| `Receiving.Receiver.Stop` | src/rx/receiver.rs:121-142 | only a completed receiver-off reaches Stopped; then the queue is paused and the sample stream reset; statistics are unchanged |
| `Receiving.Receiver.SendOff` | src/session.rs:246-253 | the transition and the transfer that stop and close begin with |
| `Receiving.Receiver.Quiesce` | src/rx/receiver.rs:131-139 | what a completed stop does to queue and processor, losing no counts |
| `Receiving.Receiver.FailedRead` | src/rx/receiver.rs:152-159 | a read error retires the stream and leaves CleanupRequired, losing no counts |
| `Receiving.Receiver.BeginRead` | src/rx/receiver.rs:231-244 | a read is refused unless running, and a new decimation starts a new stream |
| `Receiving.Receiver.Fetch` | src/rx/receiver.rs:254-261 | unless something is left over, a read waits for a buffer; the bytes it brings in are exactly one delivered buffer |
| `Receiving.Receiver.HandOut` | src/rx/receiver.rs:262-263 | every byte is either converted or still unread; at least one sample is handed out, and the slice is filled unless the buffer is used up |
| `Receiving.Receiver.ReadOn` | src/rx/receiver.rs:249-264 | a read after `begin_read` is pending, an error, or at least one sample exactly as its wait ends, with the same error |
| `Receiving.Receiver.PollRead` | src/rx/receiver.rs:245-264 | progress and continuity of reads: the read is pending, an error, or at least one sample exactly as its wait ends (`ReadEnds`); it fills the slice or uses the buffer up; samples and bytes continue exactly where the last read left off, and any error leaves Running |
| `Receiving.ReadEnds` | src/rx/receiver.rs:249-264 | when a read succeeds, by what is left over and by the completions alone: with something left over always; otherwise it waits exactly while the first completion that counts has not come, and then that one decides between samples, `Transfer` and `Protocol` |
| `Receiving.ArrivedIs` | src/rx/receiver.rs:254-261 | the bytes a wait brings in are none, or exactly those of that completion |
| `Receiving.Receiver.Await` | src/rx/receiver.rs:271-278 | the blocking wait for a buffer, unless something is left over |
| `Receiving.Receiver.ReadOnBlocking` | src/rx/receiver.rs:271-281 | a blocking read after `begin_read`: zero samples, an error, or at least one sample exactly as its wait ends |
| `Receiving.Receiver.ReadBlocking` | src/rx/receiver.rs:266-281 | the blocking read: zero samples, an error, or at least one sample exactly as its wait ends (`ReadEnds`), and continuity of samples and bytes as for the polled read |
| `Receiving.Receiver.RefreshPacking` | src/rx/receiver.rs:175-185 | a running stream of the wrong packing is restarted; afterwards the queue has the wanted packing or clean-up is required |
| `Receiving.RefreshedIs` | src/rx/receiver.rs:175-185 | the queue a raw block is then taken from: the present one, or a new one with sixteen buffers pending and nothing to discard |
| `Receiving.Receiver.GiveBack` | src/rx/receiver.rs:192-192 | the block handed out last is resubmitted |
| `Receiving.Receiver.PollNextBlock` | src/rx/receiver.rs:186-197 | the last block goes back before the next is waited for |
| `Receiving.Receiver.NextBlockBlocking` | src/rx/receiver.rs:204-221 | a block, no block, or an error exactly as the wait ends on the queue that the restart leaves; a restart that fails is an error; and a block has the size of the packing read at the beginning of the call |
| `Receiving.Receiver.WaitNextBlock` | src/rx/receiver.rs:211-217 | the last block goes back and the next is waited for, with the result of that wait |
| `Receiving.BlockResultIs` | src/rx/receiver.rs:204-221 | the result of a blocking wait by the completions alone: no block if and only if they run out before the first that counts; each error if and only if that one says so; and a block has exactly its bytes |
| `Receiving.RefillEnds` | src/rx/receiver.rs:186-197 | the same for one poll |
| `Receiving.Receiver.BeginRestart` | src/rx/receiver.rs:175-185 | a restart first retires the stream, requires clean-up and sends receiver-off |
| `Receiving.Receiver.ResumeRestart` | src/rx/receiver.rs:88-118 | one poll of a restart goes from the await it is at as far as the answers go, sends what that takes, and leaves a valid receiver wherever it stops |
| `NextBlocks.RestartAgrees` | src/rx/receiver.rs:67-119 | a restart polled once and then dropped has sent the commands, and come to the result, of a start attempt cancelled at the same await |
| `NextBlocks.PollFollows` | src/rx/receiver.rs:371-406 | what one poll does to the captured settings: kept once captured, captured when the packing has changed, and otherwise none; a block has the size of the settings in force |
| `NextBlocks.PollDelivers` | src/rx/receiver.rs:386-403 | what a poll with nothing left to restart delivers, by the completions alone: it waits exactly while the first that counts has not come; then it delivers that one's bytes or its error |
| `NextBlocks.CapturedSize` | src/rx/receiver.rs:371-406 | once restarting, a future delivers a block of the captured size, whatever the settings become in later polls |
| `NextBlocks.BlockSize` | src/rx/receiver.rs:358-406 | over all polls of a new future: the block has the size of the packing read by the poll that began a restart, or by the delivering poll if none did; it has the size the settings call for at its delivery if and only if these two packings are equal |
| `NextBlocks.PackingChangedBack` | src/rx/receiver.rs:371-406 | a concrete run in which they are not: the packing is changed, a poll begins the restart, the packing is changed back, and the next poll delivers a packed block |
| `NextBlocks.NextBlockFuture.constructor` | src/rx/receiver.rs:363-370 | a new future is direct |
| `NextBlocks.NextBlockFuture.Begin` | src/rx/receiver.rs:376-385 | the change of state from direct to restarting, with the settings read at that moment |
| `NextBlocks.NextBlockFuture.Resume` | src/rx/receiver.rs:402 | a poll of a restarting future continues the restart |
| `NextBlocks.NextBlockFuture.FillNext` | src/rx/receiver.rs:386-403 | a poll for the block itself |
| `NextBlocks.NextBlockFuture.Poll` | src/rx/receiver.rs:373-406 | the future object refines the step function above; after every poll the receiver is valid, so the future can be dropped there |
| `Receiving.Receiver.Close` | src/rx/receiver.rs:160-166 | the stream is retired first and the statistics returned are those last shown |
| `Receiving.CloseTallies` | src/rx/mod.rs:43-55 | folding the counters of a closed queue into the totals keeps statistics conservation |
| `SessionStates.SequenceStops` | src/protocol.rs:245-265 | a command list stops at its first failure, and succeeds exactly if all its commands were sent and completed |
| `SessionStates.SequenceIsOrdered` | src/protocol.rs:236-265 | the same without the recursion: all commands if all complete, and otherwise those up to the first that does not, with its result |
| `SessionStates.SomeFailsFirst` | src/protocol.rs:236-265 | one of the two always applies |
| `SessionStates.Session.constructor` | src/session.rs:126-137 | a new session is open and unclaimed |
| `SessionStates.Session.StartShutdown` | src/session.rs:72-85 | the transition table of `begin_shutdown` |
| `SessionStates.Session.Shutdown` | src/session.rs:87-108 | refused while the claim is held; nothing sent once closed; bias-off attempted even after receiver-off has failed; closed exactly on success of both, otherwise still closing |
| `SessionStates.Session.Send` | src/protocol.rs:236-265 | exactly the commands up to and including the first failure are sent |
| `SessionStates.Session.Apply` | src/session.rs:143-164 | nothing is sent unless the device is open; commands are sent in order up to the first that does not complete; and the receive settings change only when every command has completed |
| `SessionStates.Session.Setup` | src/session.rs:180-190 | metadata and configuration are one sequence: nothing of the configuration is sent after a failed query |
| `SessionStates.OpeningIs` | src/session.rs:180-190 | two sequences, the second sent only if the first succeeds, are one sequence |
| `SessionStates.Session.Initialize` | src/session.rs:175-198 | exactly what an opening sends and returns: everything in order and success if all transfers complete; otherwise the transfers up to the first that does not, followed by receiver-off and bias-off if that one failed (bias-off even if receiver-off failed) and by nothing if it was cancelled; dropped exactly if a transfer reached was cancelled; closed exactly if both shutdown commands completed |
| `SessionStates.Session.DropSession` | src/session.rs:111-124 | the last owner attempts both commands unless the device is closed |
| `SessionStates.RxStreamClaim.constructor` | src/session.rs:265-269 | a new claim is stopped with its drop clean-up armed |
| `SessionStates.RxStreamClaim.AcquireClaim` | src/session.rs:255-270 | succeeds exactly on an open device with an available claim |
| `SessionStates.RxStreamClaim.Close` | src/session.rs:276-295 | the claim is released only after a receiver-off that completed or was not needed; otherwise it stays held and armed |
| `SessionStates.RxStreamClaim.Drop` | src/session.rs:299-335 | an armed drop gives the claim up as available only if the receiver is known to be off |
| `Lifecycle.NextKeepsInv` | src/session.rs:72-335 | every step of the whole driver, one per control transfer, completed, failed or cancelled, keeps the lifecycle invariant |
| `Lifecycle.RunKeepsInv` | src/session.rs:72-335 | and so does every run |
| `Lifecycle.ReceiverNeverForgotten` | src/session.rs:235-253 | in every run from an opened device: if receiver-on has been sent since the last receiver-off that completed, and so whenever the receiver is on, the claim demands clean-up or its owner is not stopped; an available claim, and a stopped stream, mean that it is off |
| `Lifecycle.OneClaimant` | src/session.rs:255-274 | in every run there is at most one stream, close operation or unfinished clean-up; the claim is held exactly while there is one; and the device is open meanwhile |
| `Lifecycle.ClosedMeansOff` | src/session.rs:87-108 | the only step that closes the device is the completion of bias-off after a completed receiver-off, with nobody holding the claim; both are then really off |
| `Lifecycle.BothAttempted` | src/session.rs:201-216 | bias-off is sent whatever receiver-off has come to, and the device closes exactly if both complete |
| `Lifecycle.ShutdownIsTerminal` | src/session.rs:72-108 | after closing, no run ever sends another command or turns anything on |
| `Lifecycle.ShutdownSucceeds` | src/session.rs:72-108 | shutdown can be retried after any failure or cancellation, and without further failure closes the device |
| `Lifecycle.ShutdownRefused` | src/session.rs:77-80 | while the claim is held a shutdown request changes and sends nothing |
| `Lifecycle.FinalDrop` | src/session.rs:111-124 | in every run, once the last owner is gone, the device was closed or receiver-off and bias-off were the last two commands sent |
| `Lifecycle.DropReleases` | src/session.rs:299-335 | dropping a stream, once its clean-up has completed, leaves the claim available and the receiver off |
| `Lifecycle.OnlyStopReopens` | src/session.rs:231-253 | once clean-up is required, only a stop that completes makes a start possible again, and Running is only reached by the completion of the last step of a start |
| `Lifecycle.StartAgrees` | src/rx/receiver.rs:67-119 | the step relation and the receiver object send the same commands and reach the same receiver state, for every way the awaits of a start can end |
| `Lifecycle.StartRunAgrees` | src/rx/receiver.rs:51-119 | and so do whole runs of events that begin with a start or a packing restart |
| `Lifecycle.StopAgrees` | src/rx/receiver.rs:121-142 | a stop in the step relation sends the commands and reaches the receiver state of the receiver object |
| `Lifecycle.CloseAgrees` | src/session.rs:276-295 | a close in the step relation releases the claim exactly when the claim object does, and is otherwise left to its clean-up |
| `Lifecycle.DropAgrees` | src/session.rs:299-335 | a drop and its clean-up leave the claim as the claim object does |
| `Lifecycle.ShutdownAgrees` | src/session.rs:87-108 | a shutdown in the step relation sends the commands and leaves the shared state of the session object |
| `Lifecycle.RunsTransfers` | src/protocol.rs:236-265 | the transfers of a configuration, run as events, send what the sequence sends and leave the driver where its result says |
| `Lifecycle.OpenAgrees` | src/session.rs:175-198 | from an opened device, the events of its initialization send the commands, and reach the shared state, of the session object; the handle exists exactly on success |
| `Lifecycle.ConfigAgrees` | src/session.rs:143-164 | an update of the configuration sends in the step relation what the session object sends, and changes nothing shared |
| `Lifecycle.DropHappens` | src/session.rs:111-124 | the drop of the last owner sends both commands, whatever becomes of the first, unless the device is closed |
| `Lifecycle.ClaimIsHad` | src/session.rs:255-270 | a claim is had exactly from an open device without one |
| `Lifecycle.ReadFailureNeedsStop` | src/rx/receiver.rs:152-159 | after a failed read neither start nor restart does anything, until a stop completes |
| `MaybeFuture.WaitExtends` | src/maybe_future.rs:95-105 | a wait only adds to what has been submitted |
| `MaybeFuture.PollAgrees` | src/maybe_future.rs:115-224 | one poll either finishes as a wait would, or leaves an operation of which a wait still gives the same result and submissions |
| `MaybeFuture.Execution` | src/maybe_future.rs:95-305 | for every operation tree, environment and timing: polled to the end gives the result and submissions of a wait; dropped after any number of polls, a prefix of them, and nothing if never polled; and it ends once answers are no longer late |
| `MaybeFuture.IntoFuture` | src/maybe_future.rs:77-93 | the future of an operation is live and has exactly that operation left to execute |
| `MaybeFuture.PollFuture` | src/maybe_future.rs:115-296 | polling the future objects refines polling what is left of the operation, and never polls a completed child |
| `MaybeFuture.PollAndThen` | src/maybe_future.rs:191-224 | the loop of the `AndThen` future, with its three mutable fields, builds the second operation once and polls it in the same call |
| `MaybeFuture.PollContinueWith` | src/maybe_future.rs:115-150 | the same for `ContinueWith` |
| `MaybeFuture.DeferIsLazy` | src/maybe_future.rs:298-305 | a deferred operation submits nothing when constructed and otherwise behaves the same; without deferral construction itself submits |
| `MaybeFuture.SecondCommand` | src/maybe_future.rs:45-105 | a command chained with `continue_with` is submitted whatever the first result, one chained with `and_then` only after success, waited for or polled |
| `MaybeFuture.RecoverKeepsResult` | src/rx/receiver.rs:108-118 | the fallback at the end of `start_pipeline` submits its command exactly after an error, and returns that error |
| `MaybeFuture.SequenceStopsAtFirstFailure` | src/protocol.rs:245-265 | waited for, a command sequence submits exactly the commands up to its first failure and returns that failure; building it submits nothing |
| `MaybeFuture.PolledSequenceStops` | src/protocol.rs:245-256 | polled, whatever the timing, it never submits more than that, and once done exactly that with the same result |
| `MaybeFuture.WaitSequence` | src/protocol.rs:257-265 | the blocking loop refines waiting for the chained operation |
| `MaybeFuture.PollSequence` | src/protocol.rs:245-256 | one poll of the asynchronous loop refines polling what is left of the chained operation |
| `FirmwareProtocol.Position` | src/protocol.rs:415-418 | finds a rate in a table exactly if it is there |
| `FirmwareProtocol.CandidatesAre` | src/protocol.rs:429-438 | the candidates are exactly the feasible firmware rates, each with its decimation |
| `FirmwareProtocol.BestIsExtreme` | src/protocol.rs:439-442 | the choice is the minimum, or maximum, of the candidates |
| `FirmwareProtocol.TableIsExact` | src/rfone.rs:9-16 | the published table is exactly the set of rates that some firmware rate and decimation factor produce |
| `FirmwareProtocol.RateSelection` | src/protocol.rs:401-442 | for every requested rate: selection succeeds exactly on the published table; the firmware rate is the requested one times a decimation the converter supports; no feasible rate is lower (higher) than the policy chose; and the `expect` on the firmware table never fires |
| `FirmwareProtocol.RawRateSelection` | src/protocol.rs:406-415 | raw rates succeed exactly on their table, undecimated, at half the rate of the firmware entry |
| `FirmwareProtocol.GainPlanShape` | src/protocol.rs:344-399 | a gain plan writes gain registers only |
| `Configuration.ValidRate` | src/protocol.rs:273-280 | validation and rate selection accept the same rates, so the `expect` in `configuration` never fires, and the decimation is one the converter supports |
| `Configuration.CommandsWrite` | src/protocol.rs:273-299 | register by register, a configuration's command list writes exactly what the configuration asks for |
| `Configuration.StageRegisters` | src/protocol.rs:362-383 | stage gains: automatic gain control is on exactly for `Agc`, and otherwise off with the gain given |
| `Configuration.PresetRegisters` | src/protocol.rs:385-399 | a preset turns automatic gain control off and takes the row `21 - value` of the tables |
| `Configuration.GainRegisters` | src/protocol.rs:344-399 | which value every gain setting leaves in each of the five gain registers |
| `Configuration.ConfigurationIs` | src/protocol.rs:273-299 | which value a configuration leaves in every other register, and its receive settings, field by field |
| `Configuration.FirmwareOrder` | src/protocol.rs:281-292 | the order of a configuration: frequency, sample rate and port, then the gain registers with automatic gain control before the gain of its stage, then packing and bias |
| `Configuration.RateIsChosen` | src/protocol.rs:401-442 | every rate is accepted exactly if it is published, and the choice is a pair that yields it with the lowest, or highest, firmware rate |
| `Configuration.ProposalIsSound` | src/device.rs:131-308 | an update passes validation exactly if the configuration it proposes is valid; its receive settings are the derived ones; and its commands cover every register in which the two configurations differ |
| `Configuration.ProposalIsValidated` | src/device.rs:131-308 | the validity and receive-settings half of it |
| `Configuration.ProposalCovers` | src/device.rs:131-308 | the register half of it |
| `Configuration.EndIsOk` | src/device.rs:488-504 | an update succeeds exactly if it is valid, the device is open and all commands complete |
| `Configuration.UpdateCommits` | src/device.rs:488-504 | commit atomicity: configuration and receive settings stay coherent and change only together, on success; invalid updates and closed devices send nothing |
| `Configuration.StreamsAreSupported` | src/protocol.rs:273-299 | streams are only ever given a decimation the converter supports |
| `Configuration.TuneKeepsTuned` | src/device.rs:131-308 | one update, however it ends, keeps every register not touched by a failed update equal to what the configuration wants |
| `Configuration.SnapshotTracksHardware` | src/device.rs:100-106 | over every run of updates the configuration stays valid, the receive settings derived, and every register agrees with the configuration unless the last update that touched it went wrong |
| `Configuration.ConfigureRestores` | src/device.rs:131-137 | a successful `configure` makes every register agree again, whatever had gone wrong before |
| `Configuration.Device.constructor` | src/device.rs:428-437 | an opened device starts coherent |
| `Configuration.Device.ApplyUpdate` | src/device.rs:488-504 | an update is refused, unsent, if it is invalid or the device is not open; it sends its commands in order up to the first that does not complete; it commits the proposed configuration and receive settings if and only if all complete |
| `Configuration.Device.ConfigureAll` | src/device.rs:131-137 | on success the whole configuration is the one given and its command list has been sent, and every other field as it was; success if and only if the argument is legal, the device open and every transfer completes; otherwise configuration and receive settings as before, and nothing sent if illegal or closed |
| `Configuration.Device.SetFrequencyHz` | src/device.rs:140-149 | on success the frequency is the argument and has been sent, and every other field as it was; success if and only if the argument is legal, the device open and every transfer completes; otherwise configuration and receive settings as before, and nothing sent if illegal or closed |
| `Configuration.Device.SetPort` | src/device.rs:166-175 | on success the RF port is the argument and its selector has been sent, and every other field as it was; success if and only if the argument is legal, the device open and every transfer completes; otherwise configuration and receive settings as before, and nothing sent if illegal or closed |
| `Configuration.Device.SetGain` | src/device.rs:178-187 | on success the gain is the argument and its plan has been sent, and every other field as it was; success if and only if the argument is legal, the device open and every transfer completes; otherwise configuration and receive settings as before, and nothing sent if illegal or closed |
| `Configuration.Device.SetBiasTee` | src/device.rs:189-198 | on success the bias power is the argument and has been sent, and every other field as it was; success if and only if the argument is legal, the device open and every transfer completes; otherwise configuration and receive settings as before, and nothing sent if illegal or closed |
| `Configuration.Device.SetPackedTransfers` | src/device.rs:241-255 | on success the packing is the argument, sent, and in the receive settings with the decimation kept, and every other field as it was; success if and only if the argument is legal, the device open and every transfer completes; otherwise configuration and receive settings as before, and nothing sent if illegal or closed |
| `Configuration.Device.UpdateRate` | src/device.rs:290-308 | on success the proposed rate is set up by a firmware index and a decimation that yield it by the policy, sent and in the receive settings with the packing kept, and every other field as it was; success if and only if the argument is legal, the device open and every transfer completes; otherwise configuration and receive settings as before, and nothing sent if illegal or closed |
| `Configuration.Device.SetSampleRateHz` | src/device.rs:156-163 | on success the sample rate is the argument, set up as `UpdateRate` does, and every other field as it was; success if and only if the argument is legal, the device open and every transfer completes; otherwise configuration and receive settings as before, and nothing sent if illegal or closed |
| `Configuration.Device.SetDecimationPolicy` | src/device.rs:262-270 | on success the policy is the argument, with the rate set up again by it, and every other field as it was; success if and only if the argument is legal, the device open and every transfer completes; otherwise configuration and receive settings as before, and nothing sent if illegal or closed |

## Left out

- IEEE rounding: bit-exact statements are about uninterpreted operations, algebraic ones about
  reals. No numeric error bound is claimed, and the kernels and the constant 0.01 are taken at their
  decimal values, not at the nearest `f32`.
- Counters (`u64`) and lengths (`usize`) are unbounded; overflow is not modelled.
- Decimation factors that are not powers of two up to 64: rate selection never produces one, which
  is proved, so the converter takes it as a precondition. The same holds for the zero that
  `max(1)` guards against.
- Processing.IqProcessor.Process: takes the decimation to be constant since the last reset, which is
  what the receiver guarantees.
- `process_hb33` and `process_hb17` are one body with the filter as parameter; they differ in the
  ring size and the kernel only.
- Receiving.Receiver: one class stands for both sample modes, with the format as a field; in raw
  mode the processor is never used. The claim's receiver state is a field of it, and the shared side
  of the claim is in `SessionStates` and `Lifecycle`.
- Receiving.Receiver.StartPipeline: the two reads of the session's receive settings within `start`
  are one parameter. There is no await between them.
- NextBlocks.NextBlockFuture.Poll: the settings are read once in a poll; the code reads them up to
  three times without an await in between. The same holds for `next_block_blocking`.
- Lifecycle.NextKeepsInv: a transfer takes effect, if it does, before it ends; an effect delayed
  beyond a later command is not modelled.
- SessionStates.Session.Initialize: ends with its own shutdown. The drop of the last owner that follows
  when that shutdown has not closed the device is `DropSession`.
- Converter.Float32IqConverter.ProcessU16le: returns the samples; the bytes its test-only original makes
  of them are not part of this model.
- USB I/O of `src/usb`, wakers, pinning, mutex poisoning, clock deadlines, and leaking a stream with
  `mem::forget`.
- WebUSB scheduling, beyond "a clean-up may run later, or never, with the claim still held".
- Discovery, device metadata decoding, error texts, builders and request encoding: table look-ups
  and single-branch facts.
- Packed-sample conversion: not implemented by the driver; only packed block sizes matter.
