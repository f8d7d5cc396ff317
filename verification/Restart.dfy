/** Restarting a receiver: stop, start and the next read, as one run of the receiver object. Whatever
    was submitted before the stop may still complete afterwards; none of it reaches the caller. */
module Restarts {
  import opened Errors
  import opened Numbers
  import opened Baseband
  import opened Converter
  import opened FirmwareProtocol
  import opened Processing
  import opened RxQueue
  import opened SessionStates
  import opened Receiving

  /** The completions of everything that was pending at the stop have come, and the next one. */
  ghost predicate Reached(events: seq<Event>, d: nat) {
    |events| > d && forall i :: 0 <= i <= d ==> events[i].Done?
  }

  lemma RestartLog(log: seq<Command>, env: StartEnv)
    ensures log + [RECEIVER_OFF] + PipelineLog(false, env)
         == log + [RECEIVER_OFF, RECEIVER_RX] + if env.rx == FailedTransfer then [RECEIVER_OFF] else []
  {
    PipelineIs(false, env);
  }

  /** A stop and a start with the same packing. All sixteen buffers stay with the endpoint, in the
      order in which they had been submitted, and the completion of each of them is to be discarded. */
  method StopAndStart<F>(rx: Receiver<F>, desired: ReceiveSettings, env: StartEnv) returns (a: Attempt<()>)
    requires rx.Valid() && rx.receiver != Stopped && SupportedDecimation(desired.decimation)
    requires rx.queue.Some? && rx.queue.value.initialized && rx.queue.value.bulkIn.Some?
    requires rx.queue.value.settings.packing == desired.packing
    requires env.endpoint.Some? ==> EndpointUsable(env.endpoint.value, desired.packing)
    modifies rx.Footprint()
    ensures rx.Valid() && (forall o :: o in rx.Footprint() ==> o in old(rx.Footprint()) || fresh(o))
    ensures rx.log
         == old(rx.log) + [RECEIVER_OFF, RECEIVER_RX] + if env.rx == FailedTransfer then [RECEIVER_OFF] else []
    ensures rx.receiver == if env.rx == Completed then Running else CleanupRequired
    ensures a == Finished(Ok(())) <==> env.rx == Completed
    ensures rx.queue == old(rx.queue) && rx.queue.value.settings == desired
    ensures rx.queue.value.initialized && rx.queue.value.bulkIn.Some?
    ensures rx.queue.value.State().Inv() && rx.queue.value.current.None?
    ensures old(rx.queue.value.bulkIn.value) <= rx.queue.value.bulkIn.value && |rx.queue.value.bulkIn.value| == 16
    ensures rx.queue.value.discardRemaining == 16 && rx.queue.value.epoch == old(rx.queue.value.epoch) + 1
    ensures rx.CurrentStats() == old(rx.CurrentStats())
    ensures rx.Stream() == SampleStream([], [], None, 0)
  {
    hide Receiver.Valid, Receiver.Footprint, QueueState.Inv, QueueState.Pause, SupportedDecimation, EndpointUsable;
    hide Receiver.CurrentStats, PipelineLog, PipelineResult;
    rx.QueueInv();
    PauseKeepsInv(rx.queue.value.State());
    ghost var before := rx.log;
    var s := rx.Stop(Completed);
    AcceptKeepsInv(rx.queue.value.State(), []);
    RunsIfAllComplete(false, env);
    RestartLog(before, env);
    a := rx.Start(desired, env);
    rx.QueueInv();
  }

  /** Restart safety for converted samples, from stop to read. The completions of the sixteen buffers
      that were pending are discarded, whatever they say; until the last of them and one more have
      come, the read has nothing. The one after them decides: what has been converted and what is
      still unread is then exactly its data, or the read fails as that completion says. */
  method RestartAndRead<F>(rx: Receiver<F>, desired: ReceiveSettings, env: StartEnv, out: array<Complex<F>>,
                           events: seq<Event>) returns (r: ReadResult)
    requires rx.Valid() && rx.format == F32Iq && rx.receiver != Stopped && SupportedDecimation(desired.decimation)
    requires rx.queue.Some? && rx.queue.value.initialized && rx.queue.value.bulkIn.Some?
    requires rx.queue.value.settings.packing == desired.packing
    requires env.endpoint.Some? ==> EndpointUsable(env.endpoint.value, desired.packing)
    requires out !in rx.Footprint() && out.Length > 0
    modifies rx.Footprint(), out
    ensures rx.Valid() && (env.rx != Completed ==> r == Ready(Err(StreamClosed)))
    ensures env.rx == Completed ==>
      var whole := if desired.packing then 147_456 else 262_144;
      && (!Reached(events, 16) ==> r == Pending)
      && (Reached(events, 16) && !events[16].ok ==> r == Ready(Err(Transfer)))
      && (Reached(events, 16) && events[16].ok && (events[16].actualLen != whole || whole > |events[16].bytes|) ==>
            r == Ready(Err(Protocol)))
      && (Reached(events, 16) && events[16].ok && events[16].actualLen == whole <= |events[16].bytes| ==>
            && r == Ready(Ok(Count(r))) && 0 < Count(r) <= out.Length
            && rx.processor.emitted == out[..Count(r)]
            && rx.processor.consumed + rx.Unread() == events[16].bytes[..whole])
  {
    hide Receiver.Valid, Receiver.Footprint, QueueState.Inv, SupportedDecimation, EndpointUsable, Receiver.CurrentStats;
    hide FetchEnd, ReadEnd, Arrived;
    var a := StopAndStart(rx, desired, env);
    assert rx.processor.consumed + rx.Unread() == [];
    ReadEnds(rx.queue.value.State(), desired.decimation, false, events);
    ArrivedIs(rx.queue.value.State(), events, 16);
    r := rx.PollRead(desired, out, events);
  }

  /** And for raw blocks. */
  method RestartAndPoll<F>(rx: Receiver<F>, desired: ReceiveSettings, env: StartEnv, events: seq<Event>)
    returns (f: Fill)
    requires rx.Valid() && rx.format == RawAdc && rx.receiver != Stopped && SupportedDecimation(desired.decimation)
    requires rx.queue.Some? && rx.queue.value.initialized && rx.queue.value.bulkIn.Some?
    requires rx.queue.value.settings.packing == desired.packing
    requires env.endpoint.Some? ==> EndpointUsable(env.endpoint.value, desired.packing)
    modifies rx.Footprint()
    ensures rx.Valid() && (env.rx != Completed ==> f == Failed(StreamClosed))
    ensures f.Filled? ==> rx.receiver == Running
    ensures env.rx == Completed ==>
      var whole := if desired.packing then 147_456 else 262_144;
      && (!Reached(events, 16) ==> f == Waiting)
      && (Reached(events, 16) && !events[16].ok ==> f == Failed(Transfer))
      && (Reached(events, 16) && events[16].ok && (events[16].actualLen != whole || whole > |events[16].bytes|) ==>
            f == Failed(Protocol))
      && (Reached(events, 16) && events[16].ok && events[16].actualLen == whole <= |events[16].bytes| ==>
            && f == Filled && rx.queue.value.Block().Ok?
            && rx.queue.value.Block().value.raw == events[16].bytes[..whole])
  {
    hide Receiver.Valid, Receiver.Footprint, QueueState.Inv, SupportedDecimation, EndpointUsable, Receiver.CurrentStats;
    hide RefillEnd, Refilled, QueueState.Block;
    var a := StopAndStart(rx, desired, env);
    RefillEnds(rx.queue.value.State(), events);
    f := rx.PollNextBlock(events);
  }
}
