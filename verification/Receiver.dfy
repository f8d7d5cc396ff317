/** The receive lifecycle of src/rx/receiver.rs. One class stands for both sample modes. Each
    operation takes, as parameters, how every transfer it awaits ends; `Dropped` is the result of
    an operation cancelled at that point. */
module Receiving {
  import opened Errors
  import opened Numbers
  import opened Baseband
  import opened Converter
  import opened RxQueue
  import opened Processing
  import opened FirmwareProtocol
  import opened SessionStates

  /** How the awaits of one start attempt end. `endpoint` is what claiming the bulk endpoint
      yields: its pending transfers, or an error. */
  datatype StartEnv = StartEnv(off: Outcome, endpoint: Option<seq<Buffer>>, rx: Outcome, clear: Outcome,
    fallback: Outcome)

  datatype ReadResult = Pending | Ready(result: Result<nat>)

  /** The await that a restart for a new packing is at. It has failed once its last receiver-off has
      been answered, and it has succeeded when it waits for a block. */
  datatype RestartAt = AwaitOff | AwaitRx | AwaitClear | AwaitFallback(error: Error) | AwaitBlock
    | RestartFailed(error: Error)

  /** What a poll finds of the transfer it asks for. */
  datatype Answer = NotYet | Answered(ok: bool)

  /** Everything one poll may find. */
  datatype PollEnv = PollEnv(
    off: Answer, endpoint: Option<seq<Buffer>>, rx: Answer, clear: Answer, fallback: Answer, events: seq<Event>)

  /** The stages of a start attempt. */
  datatype Prepared = Prepared | PrepareFailed(error: Error) | PrepareDropped

  datatype SampleStream<F> = SampleStream(
    emitted: seq<Complex<F>>, consumed: seq<Byte>, pending: Option<Complex<F>>, offset: nat)

  class Receiver<F> {
    const format: SampleFormat
    const processor: IqProcessor<F>
    var queue: Option<Queue>
    var stats: StreamingStats
    /** The claim's receiver state. */
    var receiver: ReceiverState
    /** Control commands issued so far, and what the instrumentation of retired queues had counted. */
    var log: seq<Command>
    var retiredDiscards: nat
    var retiredStale: nat

    ghost function Footprint(): (s: set<object>)
      reads this`queue, processor
      ensures this in s && (queue.Some? ==> queue.value in s)
    {
      {this} + processor.Footprint() + (if queue.Some? then {queue.value} else {})
    }

    /** A processor with nothing in it, ready for any decimation. */
    ghost predicate Idle()
      reads processor, processor.Footprint()
    {
      && processor.offset == 0 && processor.pending == None && processor.consumed == [] && processor.emitted == []
      && forall d :: SupportedDecimation(d) ==> processor.ValidFor(d)
    }

    /** The sample stream since the last reset: samples handed out, bytes converted, the sample carried
        over, and how far into the current buffer the conversion has come. */
    ghost function Stream(): SampleStream<F>
      reads processor
    {
      SampleStream(processor.emitted, processor.consumed, processor.pending, processor.offset)
    }

    /** A queue that exists satisfies its own invariant, and what the processor holds belongs to
        its current buffer. In raw mode the processor is never used. */
    ghost predicate Coupled()
      reads this`queue, processor, processor.Footprint(), if queue.Some? then {queue.value} else {}
    {
      && (queue.Some? ==>
            && queue.value.State().Inv()
            && processor.ValidFor(queue.value.settings.decimation)
            && processor.Aligned(queue.value))
      && (queue.None? || format == RawAdc ==> Idle())
    }

    ghost predicate Tallied()
      reads this`stats, this`retiredDiscards, this`retiredStale
    {
      && stats.received + retiredDiscards == stats.processed + stats.dropped
      && stats.discardedOnRestart == retiredStale <= stats.dropped
    }

    ghost predicate Sound()
      reads this`queue, this`stats, this`retiredDiscards, this`retiredStale
      reads processor, processor.Footprint(), if queue.Some? then {queue.value} else {}
    {
      Coupled() && Tallied()
    }

    /** The Running invariant: while running, the queue exists, is initialized and is open. */
    ghost predicate Valid()
      reads Footprint()
      ensures Valid() && receiver == Running ==>
        queue.Some? && queue.value.initialized && queue.value.bulkIn.Some? && queue.value.State().Inv()
    {
      && Sound()
      && (receiver == Running ==> queue.Some? && queue.value.initialized && queue.value.bulkIn.Some?)
    }

    lemma QueueInv()
      requires Valid() && queue.Some?
      ensures queue.value.State().Inv()
    {
    }

    /** `current_stats`: the retired queues and the live one together. */
    function CurrentStats(): StreamingStats
      reads this`queue, this`stats, if queue.Some? then {queue.value} else {}
    {
      if queue.Some? then stats.Accumulate(queue.value.stats) else stats
    }

    /** Statistics conservation over the whole life of the receiver. The statistics shown are the
        fieldwise sums of those of the retired queues and of the live one; every completion received
        is processed or dropped, or was processed and dropped later; and those discarded on a restart
        are exactly the completions of buffers that had been submitted before the latest stop. */
    lemma StatsConserved()
      requires Sound()
      ensures var shown := CurrentStats();
        var live := if queue.Some? then queue.value.stats else StreamingStats(0, 0, 0, 0);
        var given, stale :=
          retiredDiscards + (if queue.Some? then queue.value.liveDiscards else 0),
          retiredStale + (if queue.Some? then queue.value.staleTaken else 0);
        && shown.received == stats.received + live.received
        && shown.processed == stats.processed + live.processed
        && shown.dropped == stats.dropped + live.dropped
        && shown.received + given == shown.processed + shown.dropped
        && shown.discardedOnRestart == stale <= shown.dropped
    {
    }

    constructor (format: SampleFormat, o: Arith<F>)
      ensures Valid() && fresh(Footprint())
      ensures queue == None && stats == NO_STATS && receiver == Stopped && log == [] && this.format == format
    {
      this.format := format;
      var p := new IqProcessor<F>(o);
      processor := p;
      queue := None;
      stats := NO_STATS;
      receiver := Stopped;
      log := [];
      retiredDiscards, retiredStale := 0, 0;
    }

    /** `retire_stream`: the queue's counters move to the receiver, none lost, none counted twice. */
    method RetireStream()
      requires Sound()
      modifies Footprint()
      ensures Sound() && Idle() && (forall o :: o in Footprint() ==> o in old(Footprint()) || fresh(o))
      ensures queue == None && CurrentStats() == old(CurrentStats())
      ensures receiver == old(receiver) && log == old(log)
    {
      hide IqProcessor.ValidFor, IqProcessor.Aligned, QueueState.Inv, StreamingStats.Accumulate;
      if queue.Some? {
        RetireQueue();
      }
      processor.Reset();
    }

    method RetireQueue()
      requires queue.Some? && queue.value.State().Inv() && Tallied()
      modifies this`queue, this`stats, this`retiredDiscards, this`retiredStale, queue.value
      ensures queue == None && Tallied() && CurrentStats() == old(CurrentStats())
    {
      hide QueueState.Inv, StreamingStats.Accumulate;
      var q := queue.value;
      CloseTallies(q.State(), stats, retiredDiscards, retiredStale);
      queue := None;
      var final := q.Close();
      stats := stats.Accumulate(final);
      retiredDiscards := retiredDiscards + q.liveDiscards;
      retiredStale := retiredStale + q.staleTaken;
    }

    // ---- Start ----

    /** A queue kept across a restart, or read under new settings, drops what was left of its
        current buffer if the decimation has changed. The packing has not. */
    method AdoptSettings(settings: ReceiveSettings)
      requires Sound() && queue.Some? && SupportedDecimation(settings.decimation)
      requires settings.packing == queue.value.settings.packing
      modifies Footprint()
      ensures Sound() && (forall o :: o in Footprint() ==> o in old(Footprint()) || fresh(o))
      ensures queue == old(queue) && receiver == old(receiver) && log == old(log)
      ensures stats == old(stats) && retiredDiscards == old(retiredDiscards) && retiredStale == old(retiredStale)
      ensures queue.value.State() == Adopted(old(queue.value.State()), settings)
      ensures Stream() ==
        if settings.decimation == old(queue.value.settings.decimation) then old(Stream())
        else SampleStream([], [], None, 0)
    {
      hide IqProcessor.ValidFor, QueueState.Epochs, QueueState.Pool, QueueState.Counts;
      var q := queue.value;
      AdoptedInv(q.State(), settings);
      if q.settings.decimation != settings.decimation {
        q.DiscardCurrent();
        processor.Reset();
      }
      q.settings := settings;
    }

    /** Claims the endpoint and builds a new queue on it. */
    method OpenQueue(pending: seq<Buffer>, settings: ReceiveSettings)
      requires Sound() && queue == None && Idle()
      requires SupportedDecimation(settings.decimation) && EndpointUsable(pending, settings.packing)
      modifies this`queue
      ensures Sound() && queue.Some? && fresh(queue.value)
      ensures queue.value.State() == NewQueue(pending, settings)
    {
      hide IqProcessor.ValidFor;
      NewQueueInv(pending, settings);
      var q := new Queue(pending, settings);
      queue := Some(q);
    }

    /** `run` in `start_pipeline`: receiver off and a new queue if the old one cannot be kept,
        then receiver on, then the new queue's transfers. */
    method StartAttempt(fresh': bool, settings: ReceiveSettings, env: StartEnv) returns (p: Prepared)
      requires Sound() && SupportedDecimation(settings.decimation)
      requires env.endpoint.Some? ==> EndpointUsable(env.endpoint.value, settings.packing)
      requires if fresh' then queue == None && Idle() else queue.Some?
      modifies this`queue, this`log
      ensures Sound() && (queue == old(queue) || (queue.Some? && fresh(queue.value)))
      ensures receiver == old(receiver) && stats == old(stats)
      ensures retiredDiscards == old(retiredDiscards) && retiredStale == old(retiredStale)
      ensures log == old(log) + AttemptLog(fresh', env) && p == AttemptResult(fresh', env)
      ensures !fresh' ==> queue == old(queue) && queue.value.State() == old(queue.value.State())
      ensures fresh' && p.Prepared? ==>
        queue.Some? && queue.value.State() == Initialized(NewQueue(env.endpoint.value, settings))
      ensures CurrentStats() == old(CurrentStats())
    {
      hide IqProcessor.ValidFor, QueueState.Inv, Tallied;
      if fresh' {
        log := log + [RECEIVER_OFF];
        if env.off != Completed {
          return Unless(env.off);
        }
        if env.endpoint.None? {
          return PrepareFailed(Transfer);
        }
        OpenQueue(env.endpoint.value, settings);
      }
      log := log + [RECEIVER_RX];
      if env.rx != Completed {
        return Unless(env.rx);
      }
      if fresh' {
        if env.clear == Cancelled {
          return PrepareDropped;
        }
        InitializeKeeps(queue.value.State());
        var r := queue.value.Initialize(env.clear == Completed);
        if r.Err? {
          return PrepareFailed(r.error);
        }
      }
      return Prepared;
    }

    /** `start_pipeline`, with the settings read when the attempt begins. Running is reached exactly
        when every step has completed; a step that fails is followed by one more receiver-off;
        cancellation leaves clean-up required. */
    method StartPipeline(fresh': bool, settings: ReceiveSettings, env: StartEnv) returns (a: Attempt<()>)
      requires Sound() && receiver == CleanupRequired && SupportedDecimation(settings.decimation)
      requires env.endpoint.Some? ==> EndpointUsable(env.endpoint.value, settings.packing)
      requires fresh' || Resumable(settings)
      modifies Footprint()
      ensures Valid() && (forall o :: o in Footprint() ==> o in old(Footprint()) || fresh(o))
      ensures a == PipelineResult(fresh', env) && log == old(log) + PipelineLog(fresh', env)
      ensures receiver == (if a == Finished(Ok(())) then Running else CleanupRequired)
      ensures receiver == Running <==> AllComplete(fresh', env)
      ensures receiver == Running ==> queue.value.settings == settings
      ensures fresh' && receiver == Running ==>
        queue.value.State() == Initialized(NewQueue(env.endpoint.value, settings))
      ensures !fresh' ==>
        queue == old(queue) && queue.value.State() == Adopted(old(queue.value.State()), settings) && stats == old(stats)
      ensures !fresh' ==>
        Stream() == if settings.decimation == old(queue.value.settings.decimation) then old(Stream())
                    else SampleStream([], [], None, 0)
      ensures old(CurrentStats()).AtMost(CurrentStats()) && (fresh' ==> CurrentStats() == old(CurrentStats()))
    {
      hide Valid, Coupled, Tallied, Idle, AttemptResult, AttemptLog, CurrentStats, AllComplete;
      RunsIfAllComplete(fresh', env);
      PrepareStream(fresh', settings);
      var p := StartAttempt(fresh', settings, env);
      a := Settle(p, env.fallback);
    }

    /** The stream is retired, or kept and given the new settings. */
    method PrepareStream(fresh': bool, settings: ReceiveSettings)
      requires Sound() && receiver == CleanupRequired && SupportedDecimation(settings.decimation)
      requires fresh' || Resumable(settings)
      modifies Footprint()
      ensures Sound() && (forall o :: o in Footprint() ==> o in old(Footprint()) || fresh(o))
      ensures receiver == CleanupRequired && log == old(log)
      ensures if fresh' then queue == None && Idle() && CurrentStats() == old(CurrentStats())
              else Resumable(settings) && queue == old(queue) && queue.value.settings == settings
      ensures !fresh' ==>
        queue.value.State() == Adopted(old(queue.value.State()), settings) && stats == old(stats)
      ensures !fresh' ==>
        Stream() == if settings.decimation == old(queue.value.settings.decimation) then old(Stream())
                    else SampleStream([], [], None, 0)
      ensures old(CurrentStats()).AtMost(CurrentStats())
    {
      hide IqProcessor.ValidFor, IqProcessor.Aligned, QueueState.Inv, Idle, Tallied;
      if fresh' {
        RetireStream();
      } else {
        AdoptedInv(queue.value.State(), settings);
        AdoptSettings(settings);
      }
    }

    /** The end of a start attempt. */
    method Settle(p: Prepared, fallback: Outcome) returns (a: Attempt<()>)
      requires Sound() && receiver == CleanupRequired
      requires p.Prepared? ==> queue.Some? && queue.value.initialized && queue.value.bulkIn.Some?
      modifies this`receiver, this`log
      ensures Valid() && Footprint() == old(Footprint()) && CurrentStats() == old(CurrentStats())
      ensures a == Settled(p, fallback) && log == old(log) + SettledLog(p)
      ensures receiver == if p.Prepared? then Running else CleanupRequired
    {
      hide IqProcessor.ValidFor, IqProcessor.Aligned, QueueState.Inv;
      match p {
        case Prepared =>
          receiver := Running;
          return Finished(Ok(()));
        case PrepareDropped =>
          return Dropped;
        case PrepareFailed(error) =>
          log := log + [RECEIVER_OFF];
          return if fallback == Cancelled then Dropped else Finished(Err(error));
      }
    }

    /** A queue that can be kept across a restart under these settings. */
    ghost predicate Resumable(settings: ReceiveSettings)
      reads this`queue, if queue.Some? then {queue.value} else {}
    {
      queue.Some? && queue.value.initialized && queue.value.bulkIn.Some?
          && queue.value.settings.packing == settings.packing
    }

    /** `start`. A queue that is initialized, open and of the right packing is kept, with everything
        that is pending in it and still to be discarded; only what was left of its current buffer is
        given up, and only if the decimation has changed. */
    method Start(desired: ReceiveSettings, env: StartEnv) returns (a: Attempt<()>)
      requires Valid() && SupportedDecimation(desired.decimation)
      requires env.endpoint.Some? ==> EndpointUsable(env.endpoint.value, desired.packing)
      modifies Footprint()
      ensures Valid() && (forall o :: o in Footprint() ==> o in old(Footprint()) || fresh(o))
      ensures old(receiver) == Running ==> a == Finished(Ok(())) && receiver == Running && log == old(log)
      ensures old(receiver) == CleanupRequired ==>
        a == Finished(Err(Busy)) && receiver == CleanupRequired && log == old(log)
      ensures old(receiver) == Stopped ==>
        && a == PipelineResult(!old(Resumable(desired)), env)
            && log == old(log) + PipelineLog(!old(Resumable(desired)), env)
        && receiver == (if a == Finished(Ok(())) then Running else CleanupRequired)
        && (receiver == Running ==> queue.value.settings == desired)
      ensures old(receiver) == Stopped && !old(Resumable(desired)) && receiver == Running ==>
        env.endpoint.Some? && QueueView() == Some(Initialized(NewQueue(env.endpoint.value, desired)))
      ensures old(receiver) == Stopped && old(Resumable(desired)) ==>
        && queue == old(queue) && Resumable(desired) && queue.value.settings == desired
        && queue.value.epoch == old(queue.value.epoch)
        && queue.value.discardRemaining == old(queue.value.discardRemaining)
        && old(queue.value.bulkIn.value) <= queue.value.bulkIn.value
        && (old(queue.value.current).None? ==>
              queue.value.bulkIn == old(queue.value.bulkIn) && CurrentStats() == old(CurrentStats()))
      ensures old(receiver) == Stopped && old(Resumable(desired)) ==>
        if desired.decimation == old(queue.value.settings.decimation) then
          queue.value.State() == old(queue.value.State()).(settings := desired) && Stream() == old(Stream())
        else
          queue.value.current == None && Stream() == SampleStream([], [], None, 0)
      ensures old(CurrentStats()).AtMost(CurrentStats())
    {
      hide IqProcessor.ValidFor, IqProcessor.Aligned, QueueState.Inv, Idle, Tallied, Coupled;
      var (state, start) := BeginStart(receiver);
      receiver := state;
      if start.Err? {
        return Finished(Err(start.error));
      }
      if !start.value {
        return Finished(Ok(()));
      }
      var fresh' := !(queue.Some? && queue.value.initialized && queue.value.bulkIn.Some?
                      && queue.value.settings.packing == desired.packing);
      if !fresh' { AdoptedIs(queue.value.State(), desired); }
      a := StartPipeline(fresh', desired, env);
    }

    /** `stop`. Only its success makes `start` possible again. */
    method Stop(off: Outcome) returns (a: Attempt<StreamingStats>)
      requires Valid()
      modifies Footprint()
      ensures Valid() && (forall o :: o in Footprint() ==> o in old(Footprint()) || fresh(o))
      ensures queue == old(queue) && CurrentStats() == old(CurrentStats())
      ensures log == old(log) + TurnOff(old(receiver), off).1 && receiver == TurnOff(old(receiver), off).0
      ensures receiver == (if old(receiver) == Stopped || off == Completed then Stopped else CleanupRequired)
      ensures a == if receiver == Stopped then Finished(Ok(CurrentStats()))
                   else if off == Cancelled then Dropped else Finished(Err(Transfer))
      ensures old(receiver) != Stopped && off == Completed ==>
        Idle() && (queue.Some? ==> queue.value.State() == old(queue.value.State()).Pause())
      ensures old(receiver) == Stopped || off != Completed ==> queue.Some? ==>
        queue.value.State() == old(queue.value.State())
    {
      hide IqProcessor.ValidFor, IqProcessor.Aligned, QueueState.Inv, QueueState.Pause, Tallied, CurrentStats, TurnOff;
      var run, off' := SendOff(off);
      if !run {
        return Finished(Ok(CurrentStats()));
      }
      if off' != Finished(Ok(())) {
        return if off == Cancelled then Dropped else Finished(Err(Transfer));
      }
      Quiesce();
      receiver := Stopped;
      return Finished(Ok(CurrentStats()));
    }

    /** The transition and the transfer that stop and close begin with. */
    method SendOff(off: Outcome) returns (run: bool, a: Attempt<()>)
      modifies this`receiver, this`log
      ensures (receiver, run) == BeginStop(old(receiver)) && run == (old(receiver) != Stopped)
      ensures log == old(log) + TurnOff(old(receiver), off).1 && a == TurnOff(old(receiver), off).2
      ensures a == Finished(Ok(())) <==> !run || off == Completed
      ensures TurnOff(old(receiver), off).0 == (if !run || off == Completed then Stopped else CleanupRequired)
    {
      var began := BeginStop(receiver);
      receiver, run := began.0, began.1;
      if !run {
        return false, Finished(Ok(()));
      }
      log := log + [RECEIVER_OFF];
      return true, if off == Completed then Finished(Ok(())) else Unfinished(off);
    }

    /** What a successful stop does to the stream. */
    method Quiesce()
      requires Sound()
      modifies processor, if queue.Some? then {queue.value} else {}
      ensures Sound() && Idle() && (forall o :: o in Footprint() ==> o in old(Footprint()) || fresh(o))
      ensures CurrentStats() == old(CurrentStats())
      ensures queue.Some? ==> queue.value.State() == old(queue.value.State()).Pause()
    {
      hide IqProcessor.ValidFor, QueueState.Epochs, QueueState.Pool, QueueState.Counts, Tallied;
      if queue.Some? {
        PauseKeepsInv(queue.value.State());
        queue.value.Pause();
      }
      processor.Reset();
    }

    /** The end of every failed read: the stream is retired and only a stop can follow. */
    method FailedRead()
      requires Sound()
      modifies Footprint()
      ensures Valid() && Idle() && (forall o :: o in Footprint() ==> o in old(Footprint()) || fresh(o))
      ensures queue == None && receiver == CleanupRequired && CurrentStats() == old(CurrentStats()) && log == old(log)
    {
      hide IqProcessor.ValidFor, IqProcessor.Aligned, QueueState.Inv, Tallied;
      RetireStream();
      receiver := CleanupRequired;
    }

    // ---- Reading converted samples ----

    /** The bytes of the current buffer that are still to be converted. */
    ghost function Unread(): seq<Byte>
      reads this`queue, processor`offset, if queue.Some? then {queue.value} else {}
    {
      if queue.None? then []
      else Taken(queue.value.current, queue.value.currentLen, processor.offset, queue.value.currentLen)
    }

    /** `begin_read`: refused unless running; a new decimation starts a new sample stream. */
    method BeginRead(desired: ReceiveSettings) returns (r: Result<()>)
      requires Valid() && SupportedDecimation(desired.decimation)
      modifies Footprint()
      ensures Valid() && (forall o :: o in Footprint() ==> o in old(Footprint()) || fresh(o))
      ensures queue == old(queue) && receiver == old(receiver) && log == old(log) && stats == old(stats)
      ensures r == if receiver == Running then Ok(()) else Err(StreamClosed)
      ensures r.Err? ==> queue.Some? ==> queue.value.State() == old(queue.value.State())
      ensures r.Ok? ==> queue.value.State() == Redecimated(old(queue.value.State()), desired.decimation)
      ensures old(CurrentStats()).AtMost(CurrentStats())
      ensures r.Ok? && old(Keeps(desired)) ==>
        && queue.value.State() == old(queue.value.State()) && Unread() == old(Unread())
        && processor.emitted == old(processor.emitted) && processor.consumed == old(processor.consumed)
        && processor.pending == old(processor.pending) && processor.offset == old(processor.offset)
      ensures r.Ok? && !old(Keeps(desired)) ==>
        && processor.emitted == [] && processor.consumed == [] && processor.pending == None && Unread() == []
    {
      hide IqProcessor.ValidFor, IqProcessor.Aligned, QueueState.Inv, Tallied;
      if receiver != Running {
        return Err(StreamClosed);
      }
      AdoptSettings(queue.value.settings.(decimation := desired.decimation));
      return Ok(());
    }

    /** The first half of a read: unless something is left over, wait for a buffer. */
    method Fetch(env: seq<Event>) returns (f: Fill)
      requires Valid() && receiver == Running && format == F32Iq
      modifies Footprint()
      ensures Valid() && (forall o :: o in Footprint() ==> o in old(Footprint()) || fresh(o))
      ensures log == old(log) && old(CurrentStats()).AtMost(CurrentStats())
      ensures receiver == if f.Failed? then CleanupRequired else Running
      ensures !f.Failed? ==>
        && queue == old(queue)
        && processor.emitted == old(processor.emitted) && processor.consumed == old(processor.consumed)
        && processor.pending == old(processor.pending) && processor.offset == old(processor.offset)
        && queue.value.State() == Fetched(old(queue.value.State()), old(processor.pending.Some?), env)
      ensures f == FetchEnd(old(queue.value.State()), old(processor.pending.Some?), env)
      ensures !f.Failed? ==>
        processor.consumed + Unread() ==
             old(processor.consumed + Unread()) + Arrived(old(queue.value.State()), old(processor.pending.Some?), env)
      ensures f.Filled? ==> queue.value.current.Some? || processor.pending.Some?
    {
      hide IqProcessor.ValidFor, QueueState.Inv, Tallied, FillLoop;
      if queue.value.current.Some? || processor.HasPending() {
        return Filled;
      }
      FillLoopKeeps(queue.value.State(), env);
      ghost var used;
      f, used := queue.value.PollFill(env);
      WholeBuffer(queue.value.State());
      if f.Failed? {
        FailedRead();
      }
    }

    /** The second half: samples for the caller. Conversion never fails, so `failed_read` has
        nothing to do here. Every byte is converted or still unread, and nothing else is. */
    method HandOut(out: array<Complex<F>>) returns (n: nat)
      requires Valid() && receiver == Running && format == F32Iq && out !in Footprint() && out.Length > 0
      requires queue.value.current.Some? || processor.pending.Some?
      modifies Footprint(), out
      ensures Valid() && (forall o :: o in Footprint() ==> o in old(Footprint()) || fresh(o))
      ensures queue == old(queue) && receiver == Running && log == old(log) && CurrentStats() == old(CurrentStats())
      ensures 0 < n <= out.Length && out[n..] == old(out[..])[n..]
      ensures n == out.Length || queue.value.current.None?
      ensures processor.emitted == old(processor.emitted) + out[..n]
      ensures processor.consumed + Unread() == old(processor.consumed + Unread())
      ensures queue.value.settings == old(queue.value.settings)
    {
      hide IqProcessor.ValidFor, QueueState.Inv, Tallied;
      ghost var q, offset := queue.value.State(), processor.offset;
      ReleaseKeeps(q);
      var r := processor.Process(queue.value, out);
      TakenSplit(q.current, q.currentLen, offset, if queue.value.current.Some? then processor.offset else q.currentLen);
      return r.value;
    }

    /** `poll_read` after `begin_read`. */
    method ReadOn(out: array<Complex<F>>, env: seq<Event>) returns (r: ReadResult)
      requires Valid() && receiver == Running && format == F32Iq && out !in Footprint() && out.Length > 0
      modifies Footprint(), out
      ensures Valid() && (forall o :: o in Footprint() ==> o in old(Footprint()) || fresh(o))
      ensures log == old(log) && old(CurrentStats()).AtMost(CurrentStats())
      ensures receiver == if r.Ready? && r.result.Err? then CleanupRequired else Running
      ensures Count(r) <= out.Length && out[Count(r)..] == old(out[..])[Count(r)..]
      ensures var end := FetchEnd(old(queue.value.State()), old(processor.pending.Some?), env);
        && (end.Waiting? ==> r == Pending)
        && (end.Failed? ==> r == Ready(Err(end.error)))
        && (end.Filled? ==>
              r == Ready(Ok(Count(r))) && Count(r) > 0 && (Count(r) == out.Length || queue.value.current.None?))
      ensures receiver == Running ==>
        && processor.emitted == old(processor.emitted) + out[..Count(r)]
        && processor.consumed + Unread() ==
             old(processor.consumed + Unread()) + Arrived(old(queue.value.State()), old(processor.pending.Some?), env)
    {
      hide Valid, QueueState.Inv, Unread, Arrived, Fetched, FetchEnd, CurrentStats, StreamingStats.AtMost;
      var f := Fetch(env);
      if f.Filled? {
        var n := HandOut(out);
        return Ready(Ok(n));
      }
      r := if f.Failed? then Ready(Err(f.error)) else Pending;
    }

    /** `poll_read`. A read that is ready without an error has written at least one sample into a
        non-empty slice; the samples continue the stream exactly where the last read left it; and
        an error retires the stream. */
    method PollRead(desired: ReceiveSettings, out: array<Complex<F>>, env: seq<Event>) returns (r: ReadResult)
      requires Valid() && format == F32Iq && SupportedDecimation(desired.decimation) && out !in Footprint()
      modifies Footprint(), out
      ensures Valid() && (forall o :: o in Footprint() ==> o in old(Footprint()) || fresh(o))
      ensures log == old(log) && old(CurrentStats()).AtMost(CurrentStats())
      ensures old(receiver) != Running ==> r == Ready(Err(StreamClosed)) && receiver == old(receiver)
      ensures old(receiver) == Running ==> receiver == if r.Ready? && r.result.Err? then CleanupRequired else Running
      ensures Count(r) <= out.Length && out[Count(r)..] == old(out[..])[Count(r)..]
      ensures old(receiver) == Running && out.Length == 0 ==> r == Ready(Ok(0))
      ensures old(receiver) == Running && out.Length > 0 ==>
        var end := ReadEnd(old(queue.value.State()), desired.decimation, old(processor.pending.Some?), env);
        && (end.Waiting? ==> r == Pending)
        && (end.Failed? ==> r == Ready(Err(end.error)))
        && (end.Filled? ==>
              r == Ready(Ok(Count(r))) && Count(r) > 0 && (Count(r) == out.Length || queue.value.current.None?))
      ensures receiver == Running ==>
        processor.emitted == (if old(Keeps(desired)) then old(processor.emitted) else []) + out[..Count(r)]
      ensures receiver == Running && out.Length > 0 ==>
        processor.consumed + Unread() ==
          if old(Keeps(desired))
          then old(processor.consumed + Unread()) + Arrived(old(queue.value.State()), old(processor.pending.Some?), env)
          else FirstArrival(old(queue.value.State()), desired.decimation, env)
    {
      hide Valid, QueueState.Inv, Arrived, Unread, Redecimated, FetchEnd, CurrentStats, Footprint;
      var begun := BeginRead(desired);
      if begun.Err? {
        return Ready(Err(begun.error));
      }
      if out.Length == 0 {
        return Ready(Ok(0));
      }
      r := ReadOn(out, env);
    }

    /** Whether a read continues the present sample stream. */
    predicate Keeps(desired: ReceiveSettings)
      reads this`queue, if queue.Some? then {queue.value} else {}
    {
      queue.Some? && queue.value.settings.decimation == desired.decimation
    }

    /** The first half of a blocking read. */
    method Await(env: seq<Event>) returns (r: Result<bool>)
      requires Valid() && receiver == Running && format == F32Iq
      modifies Footprint()
      ensures Valid() && (forall o :: o in Footprint() ==> o in old(Footprint()) || fresh(o))
      ensures log == old(log) && old(CurrentStats()).AtMost(CurrentStats())
      ensures receiver == if r.Err? then CleanupRequired else Running
      ensures r == Waited(FetchEnd(old(queue.value.State()), old(processor.pending.Some?), env))
      ensures r.Ok? ==>
        && queue == old(queue)
        && processor.emitted == old(processor.emitted) && processor.consumed == old(processor.consumed)
        && processor.pending == old(processor.pending) && processor.offset == old(processor.offset)
        && queue.value.State() == Fetched(old(queue.value.State()), old(processor.pending.Some?), env)
      ensures r.Ok? ==>
        processor.consumed + Unread() ==
             old(processor.consumed + Unread()) + Arrived(old(queue.value.State()), old(processor.pending.Some?), env)
      ensures r == Ok(true) ==> queue.value.current.Some? || processor.pending.Some?
    {
      hide IqProcessor.ValidFor, QueueState.Inv, Tallied, FillLoop;
      if queue.value.current.Some? || processor.HasPending() {
        return Ok(true);
      }
      FillLoopKeeps(queue.value.State(), env);
      ghost var used;
      r, used := queue.value.WaitFill(env);
      WholeBuffer(queue.value.State());
      if r.Err? {
        FailedRead();
      }
    }

    /** `read_blocking` after `begin_read`. */
    method ReadOnBlocking(out: array<Complex<F>>, env: seq<Event>) returns (r: Result<nat>)
      requires Valid() && receiver == Running && format == F32Iq && out !in Footprint() && out.Length > 0
      modifies Footprint(), out
      ensures Valid() && (forall o :: o in Footprint() ==> o in old(Footprint()) || fresh(o))
      ensures log == old(log) && old(CurrentStats()).AtMost(CurrentStats())
      ensures receiver == if r.Err? then CleanupRequired else Running
      ensures var end := FetchEnd(old(queue.value.State()), old(processor.pending.Some?), env);
        && (end.Waiting? ==> r == Ok(0))
        && (end.Failed? ==> r == Err(end.error))
        && (end.Filled? ==> r.Ok? && r.value > 0 && (r.value == out.Length || queue.value.current.None?))
      ensures r.Ok? ==>
        && r.value <= out.Length && out[r.value..] == old(out[..])[r.value..]
        && processor.emitted == old(processor.emitted) + out[..r.value]
        && processor.consumed + Unread() ==
             old(processor.consumed + Unread()) + Arrived(old(queue.value.State()), old(processor.pending.Some?), env)
    {
      hide Valid, QueueState.Inv, Unread, Arrived, Fetched, FetchEnd, CurrentStats, StreamingStats.AtMost;
      var filled := Await(env);
      if filled == Ok(true) {
        var n := HandOut(out);
        return Ok(n);
      }
      r := if filled.Err? then Err(filled.error) else Ok(0);
    }

    /** `read_blocking`. It reads zero samples exactly into an empty slice or when the endpoint stays
        silent; otherwise it behaves as the polled read. */
    method ReadBlocking(desired: ReceiveSettings, out: array<Complex<F>>, env: seq<Event>) returns (r: Result<nat>)
      requires Valid() && format == F32Iq && SupportedDecimation(desired.decimation) && out !in Footprint()
      modifies Footprint(), out
      ensures Valid() && (forall o :: o in Footprint() ==> o in old(Footprint()) || fresh(o))
      ensures log == old(log) && old(CurrentStats()).AtMost(CurrentStats())
      ensures old(receiver) != Running ==> r == Err(StreamClosed) && receiver == old(receiver)
      ensures old(receiver) == Running ==> receiver == if r.Err? then CleanupRequired else Running
      ensures old(receiver) == Running && out.Length == 0 ==> r == Ok(0)
      ensures old(receiver) == Running && out.Length > 0 ==>
        var end := ReadEnd(old(queue.value.State()), desired.decimation, old(processor.pending.Some?), env);
        && (end.Waiting? ==> r == Ok(0))
        && (end.Failed? ==> r == Err(end.error))
        && (end.Filled? ==> r.Ok? && r.value > 0 && (r.value == out.Length || queue.value.current.None?))
      ensures r.Ok? ==>
        && r.value <= out.Length && out[r.value..] == old(out[..])[r.value..]
        && processor.emitted == (if old(Keeps(desired)) then old(processor.emitted) else []) + out[..r.value]
      ensures r.Ok? && out.Length > 0 ==>
        processor.consumed + Unread() ==
          if old(Keeps(desired))
          then old(processor.consumed + Unread()) + Arrived(old(queue.value.State()), old(processor.pending.Some?), env)
          else FirstArrival(old(queue.value.State()), desired.decimation, env)
    {
      hide Valid, QueueState.Inv, Arrived, Unread, Redecimated, FetchEnd, CurrentStats, Footprint;
      var begun := BeginRead(desired);
      if begun.Err? {
        return Err(begun.error);
      }
      if out.Length == 0 {
        return Ok(0);
      }
      r := ReadOnBlocking(out, env);
    }

    // ---- Reading raw blocks ----

    predicate PackingChanged(desired: ReceiveSettings)
      reads this`queue, if queue.Some? then {queue.value} else {}
    {
      queue.Some? && queue.value.settings.packing != desired.packing
    }

    /** `refresh_packing`: a running stream of the wrong packing is replaced. Until the replacement
        runs, and if it never does, clean-up is required. */
    method RefreshPacking(desired: ReceiveSettings, env: StartEnv) returns (a: Attempt<()>)
      requires Valid() && format == RawAdc && SupportedDecimation(desired.decimation)
      requires env.endpoint.Some? ==> EndpointUsable(env.endpoint.value, desired.packing)
      modifies Footprint()
      ensures Valid() && (forall o :: o in Footprint() ==> o in old(Footprint()) || fresh(o))
      ensures old(receiver) != Running ==>
        a == Finished(Err(StreamClosed)) && receiver == old(receiver) && log == old(log)
      ensures old(receiver) == Running && !old(PackingChanged(desired)) ==>
        && a == Finished(Ok(())) && receiver == Running && log == old(log)
        && queue == old(queue) && queue.value.State() == old(queue.value.State())
      ensures old(receiver) == Running && old(PackingChanged(desired)) ==>
        && a == PipelineResult(true, env) && log == old(log) + PipelineLog(true, env)
        && receiver == (if a == Finished(Ok(())) then Running else CleanupRequired)
        && (receiver == Running <==> AllComplete(true, env))
      ensures a == Finished(Ok(())) ==> receiver == Running && queue.value.settings.packing == desired.packing
      ensures a == Finished(Ok(())) ==>
        queue.value.State() == Refreshed(old(queue.value.State()), desired, env)
      ensures CurrentStats() == old(CurrentStats())
    {
      hide IqProcessor.ValidFor, IqProcessor.Aligned, QueueState.Inv, Tallied;
      if receiver != Running {
        return Finished(Err(StreamClosed));
      }
      if !PackingChanged(desired) {
        return Finished(Ok(()));
      }
      receiver := CleanupRequired;
      a := StartPipeline(true, desired, env);
    }

    /** The block handed out last goes back to the endpoint. */
    method GiveBack()
      requires Valid() && format == RawAdc && receiver == Running
      modifies queue.value
      ensures Valid() && queue.value.current.None? && Footprint() == old(Footprint())
      ensures queue.value.State() == old(queue.value.State()).ReleaseCurrent()
      ensures queue.value.settings == old(queue.value.settings) && CurrentStats() == old(CurrentStats())
    {
      hide IqProcessor.ValidFor, QueueState.Inv, QueueState.ReleaseCurrent, Tallied;
      ReleaseKeeps(queue.value.State());
      queue.value.ReleaseCurrent();
    }

    /** `poll_next_block`: the block handed out last goes back to the endpoint first. */
    method PollNextBlock(env: seq<Event>) returns (f: Fill)
      requires Valid() && format == RawAdc
      modifies Footprint()
      ensures Valid() && (forall o :: o in Footprint() ==> o in old(Footprint()) || fresh(o))
      ensures log == old(log) && old(CurrentStats()).AtMost(CurrentStats())
      ensures old(receiver) != Running ==>
        && f == Failed(StreamClosed) && receiver == old(receiver)
        && queue == old(queue) && (queue.Some? ==> queue.value.State() == old(queue.value.State()))
      ensures old(receiver) == Running ==> receiver == if f.Failed? then CleanupRequired else Running
      ensures receiver == Running ==>
        && queue == old(queue) && queue.value.State() == Refilled(old(queue.value.State()), env)
        && queue.value.settings == old(queue.value.settings)
      ensures old(receiver) == Running ==>
        f == RefillEnd(old(queue.value.State()), env) && (f.Failed? ==> queue == None)
      ensures f.Filled? ==> receiver == Running && queue.value.current.Some?
    {
      hide IqProcessor.ValidFor, QueueState.Inv, QueueState.ReleaseCurrent, Tallied, FillLoop;
      if receiver != Running {
        return Failed(StreamClosed);
      }
      GiveBack();
      FillLoopKeeps(queue.value.State(), env);
      ghost var used;
      f, used := queue.value.PollFill(env);
      WholeBuffer(queue.value.State());
      if f.Failed? {
        FailedRead();
      }
    }

    /** `next_block_blocking`. A change of packing restarts the stream first, so a block has the size
        of the packing read at the beginning of the call. */
    method NextBlockBlocking(desired: ReceiveSettings, restart: StartEnv, env: seq<Event>)
      returns (r: Result<Option<SampleBlock>>)
      requires Valid() && format == RawAdc && SupportedDecimation(desired.decimation) && Uninterrupted(restart)
      requires restart.endpoint.Some? ==> EndpointUsable(restart.endpoint.value, desired.packing)
      modifies Footprint()
      ensures Valid() && (forall o :: o in Footprint() ==> o in old(Footprint()) || fresh(o))
      ensures old(CurrentStats()).AtMost(CurrentStats())
      ensures old(receiver) != Running ==> r == Err(StreamClosed) && receiver == old(receiver)
      ensures old(receiver) == Running ==> receiver == if r.Err? then CleanupRequired else Running
      ensures r.Ok? ==> queue.Some? && queue.value.settings.packing == desired.packing
      ensures old(receiver) == Running && old(PackingChanged(desired)) && !AllComplete(true, restart) ==> r.Err?
      ensures old(receiver) == Running && (old(PackingChanged(desired)) ==> AllComplete(true, restart)) ==>
        BlockResult(r, Refreshed(old(queue.value.State()), desired, restart), env)
      ensures r.Ok? && r.value.Some? ==> |r.value.value.raw| == ExpectedLen(desired.packing)
    {
      hide Valid, QueueState.Inv, FillLoop, CurrentStats, Footprint, QueueState.Block;
      hide Refreshed, RefillEnd, Refilled;
      Completes(restart);
      var refreshed := RefreshPacking(desired, restart);
      if refreshed.result.Err? {
        return Err(refreshed.result.error);
      }
      var filled := WaitNextBlock(env);
      if filled.Err? {
        return Err(filled.error);
      }
      if !filled.value {
        return Ok(None);
      }
      return Ok(Some(queue.value.Block().value));
    }

    /** The part of it after the restart: the last block goes back and the next is waited for. */
    method WaitNextBlock(env: seq<Event>) returns (r: Result<bool>)
      requires Valid() && format == RawAdc && receiver == Running
      modifies Footprint()
      ensures Valid() && (forall o :: o in Footprint() ==> o in old(Footprint()) || fresh(o))
      ensures old(CurrentStats()).AtMost(CurrentStats())
      ensures receiver == if r.Err? then CleanupRequired else Running
      ensures r == Waited(RefillEnd(old(queue.value.State()), env))
      ensures r.Ok? ==>
        && queue == old(queue) && queue.value.State() == Refilled(old(queue.value.State()), env)
        && queue.value.settings == old(queue.value.settings)
      ensures r == Ok(true) ==> queue.value.current.Some?
    {
      hide IqProcessor.ValidFor, QueueState.Inv, QueueState.ReleaseCurrent, Tallied, FillLoop;
      GiveBack();
      FillLoopKeeps(queue.value.State(), env);
      ghost var used;
      r, used := queue.value.WaitFill(env);
      WholeBuffer(queue.value.State());
      if r.Err? {
        FailedRead();
      }
    }

    // ---- The steps of a restart that is polled ----

    ghost function QueueView(): Option<QueueState>
      reads this`queue, if queue.Some? then {queue.value} else {}
    {
      if queue.Some? then Some(queue.value.State()) else None
    }

    ghost function RestartView(at: RestartAt): Restart
      reads this`queue, this`log, if queue.Some? then {queue.value} else {}
    {
      Restart(at, QueueView(), log)
    }

    /** The synchronous beginning of a restart: the stream is retired and receiver-off is sent. */
    method BeginRestart()
      requires Valid()
      modifies Footprint()
      ensures Valid() && (forall o :: o in Footprint() ==> o in old(Footprint()) || fresh(o))
      ensures queue == None && receiver == CleanupRequired && log == old(log) + [RECEIVER_OFF]
      ensures CurrentStats() == old(CurrentStats())
    {
      hide IqProcessor.ValidFor, IqProcessor.Aligned, QueueState.Inv, Tallied;
      RetireStream();
      receiver := CleanupRequired;
      log := log + [RECEIVER_OFF];
    }

    /** One poll of a restart: from the await it is at, as far as the answers go. Wherever it stops,
        the receiver is left valid, so the operation can be dropped there. */
    method ResumeRestart(at: RestartAt, settings: ReceiveSettings, env: PollEnv) returns (at': RestartAt)
      requires Valid() && receiver == CleanupRequired && SupportedDecimation(settings.decimation)
      requires RestartView(at).Fits(settings) && at != AwaitBlock
      requires env.endpoint.Some? ==> EndpointUsable(env.endpoint.value, settings.packing)
      modifies Footprint()
      ensures Valid() && (forall o :: o in Footprint() ==> o in old(Footprint()) || fresh(o))
      ensures RestartView(at') == old(RestartView(at)).Advance(settings, env) && RestartView(at').Fits(settings)
      ensures receiver == (if at' == AwaitBlock then Running else CleanupRequired)
      ensures CurrentStats() == old(CurrentStats())
    {
      hide Valid, Footprint, Restart.OffEnds, Restart.RxEnds, Restart.ClearEnds, Restart.Fits, CurrentStats;
      at' := OffAnswered(at, settings, env);
      at' := RxAnswered(at', settings, env);
      at' := ClearAnswered(at', settings, env);
      FallbackFits(RestartView(at'), settings, env);
      if at'.AwaitFallback? && env.fallback.Answered? {
        at' := RestartFailed(at'.error);
      }
    }

    method OffAnswered(at: RestartAt, settings: ReceiveSettings, env: PollEnv) returns (at': RestartAt)
      requires Valid() && receiver == CleanupRequired && SupportedDecimation(settings.decimation)
      requires RestartView(at).Fits(settings) && at != AwaitBlock
      requires env.endpoint.Some? ==> EndpointUsable(env.endpoint.value, settings.packing)
      modifies this`queue, this`log
      ensures Valid() && (forall o :: o in Footprint() ==> o in old(Footprint()) || fresh(o))
      ensures RestartView(at') == old(RestartView(at)).OffEnds(settings, env) && RestartView(at').Fits(settings)
      ensures at' != AwaitBlock && CurrentStats() == old(CurrentStats())
    {
      hide IqProcessor.ValidFor, Tallied, QueueState.Inv;
      if at != AwaitOff || env.off.NotYet? {
        return at;
      }
      if !env.off.ok || env.endpoint.None? {
        log := log + [RECEIVER_OFF];
        return AwaitFallback(Transfer);
      }
      OpenQueue(env.endpoint.value, settings);
      log := log + [RECEIVER_RX];
      return AwaitRx;
    }

    method RxAnswered(at: RestartAt, settings: ReceiveSettings, env: PollEnv) returns (at': RestartAt)
      requires Valid() && receiver == CleanupRequired && RestartView(at).Fits(settings) && at != AwaitBlock
      modifies this`log
      ensures Valid() && Footprint() == old(Footprint())
      ensures RestartView(at') == old(RestartView(at)).RxEnds(settings, env) && RestartView(at').Fits(settings)
      ensures at' != AwaitBlock && CurrentStats() == old(CurrentStats())
    {
      hide IqProcessor.ValidFor, Tallied, QueueState.Inv;
      if at != AwaitRx || env.rx.NotYet? {
        return at;
      }
      if env.rx.ok {
        return AwaitClear;
      }
      log := log + [RECEIVER_OFF];
      return AwaitFallback(Transfer);
    }

    method ClearAnswered(at: RestartAt, settings: ReceiveSettings, env: PollEnv) returns (at': RestartAt)
      requires Valid() && receiver == CleanupRequired && RestartView(at).Fits(settings) && at != AwaitBlock
      modifies this`receiver, this`log, if queue.Some? then {queue.value} else {}
      ensures Valid() && queue == old(queue) && Footprint() == old(Footprint())
      ensures RestartView(at') == old(RestartView(at)).ClearEnds(settings, env) && RestartView(at').Fits(settings)
      ensures receiver == (if at' == AwaitBlock then Running else CleanupRequired)
      ensures CurrentStats() == old(CurrentStats())
    {
      hide IqProcessor.ValidFor, Tallied, QueueState.Inv;
      if at != AwaitClear || env.clear.NotYet? {
        return at;
      }
      InitializeKeeps(queue.value.State());
      var r := queue.value.Initialize(env.clear.ok);
      if r.Err? {
        log := log + [RECEIVER_OFF];
        return AwaitFallback(r.error);
      }
      receiver := Running;
      return AwaitBlock;
    }

    // ---- Closing ----

    /** `close`: the stream is retired before anything else, and its final statistics are what the
        receiver last showed. */
    method Close(off: Outcome) returns (a: Attempt<StreamingStats>)
      requires Valid()
      modifies Footprint()
      ensures queue == None
      ensures log == old(log) + TurnOff(old(receiver), off).1 && receiver == TurnOff(old(receiver), off).0
      ensures receiver == (if old(receiver) == Stopped || off == Completed then Stopped else CleanupRequired)
      ensures a == if receiver == Stopped then Finished(Ok(old(CurrentStats())))
                   else if off == Cancelled then Dropped else Finished(Err(Transfer))
    {
      hide IqProcessor.ValidFor, IqProcessor.Aligned, QueueState.Inv, Tallied;
      RetireStream();
      var run, off' := SendOff(off);
      if off' != Finished(Ok(())) {
        return if off == Cancelled then Dropped else Finished(Err(Transfer));
      }
      receiver := Stopped;
      return Finished(Ok(stats));
    }
  }

  /** How far a restart has come: the await it is at, the queue, and the commands sent. */
  datatype Restart = Restart(at: RestartAt, queue: Option<QueueState>, log: seq<Command>)
  {
    ghost predicate Fits(settings: ReceiveSettings) {
      && (queue.Some? ==> queue.value.Inv())
      && match at
         case AwaitOff => queue.None?
         case AwaitRx => Unready(settings)
         case AwaitClear => Unready(settings)
         case AwaitBlock => queue.Some? && queue.value.Open() && queue.value.initialized
             && queue.value.settings == settings
         case _ => true
    }

    predicate Unready(settings: ReceiveSettings) {
      && queue.Some? && queue.value.Open() && !queue.value.initialized
      && queue.value.discardRemaining == 0 && queue.value.settings == settings
    }

    function Fallen(error: Error): Restart {
      Restart(AwaitFallback(error), queue, log + [RECEIVER_OFF])
    }

    function OffEnds(settings: ReceiveSettings, env: PollEnv): Restart {
      if at != AwaitOff || env.off.NotYet? then this
      else if !env.off.ok || env.endpoint.None? then Fallen(Transfer)
      else Restart(AwaitRx, Some(NewQueue(env.endpoint.value, settings)), log + [RECEIVER_RX])
    }

    function RxEnds(settings: ReceiveSettings, env: PollEnv): Restart {
      if at != AwaitRx || env.rx.NotYet? then this
      else if env.rx.ok then this.(at := AwaitClear) else Fallen(Transfer)
    }

    function ClearEnds(settings: ReceiveSettings, env: PollEnv): Restart {
      if at != AwaitClear || env.clear.NotYet? || queue.None? || !queue.value.Open() then this
      else if env.clear.ok then this.(at := AwaitBlock, queue := Some(Initialized(queue.value))) else Fallen(Transfer)
    }

    function FallbackEnds(settings: ReceiveSettings, env: PollEnv): Restart {
      if at.AwaitFallback? && env.fallback.Answered? then this.(at := RestartFailed(at.error)) else this
    }

    /** One poll. */
    function Advance(settings: ReceiveSettings, env: PollEnv): Restart {
      OffEnds(settings, env).RxEnds(settings, env).ClearEnds(settings, env).FallbackEnds(settings, env)
    }
  }

  lemma FallbackFits(r: Restart, settings: ReceiveSettings, env: PollEnv)
    requires r.Fits(settings)
    ensures r.FallbackEnds(settings, env).Fits(settings)
  {
  }

  /** A wait cannot be cancelled. */
  predicate Uninterrupted(env: StartEnv) {
    env.off != Cancelled && env.rx != Cancelled && env.clear != Cancelled && env.fallback != Cancelled
  }

  lemma Completes(env: StartEnv)
    requires Uninterrupted(env)
    ensures PipelineResult(true, env).Finished?
  {
  }

  /** A failed attempt ends with one more receiver-off; a cancelled one just ends. */
  function SettledLog(p: Prepared): seq<Command> {
    if p.PrepareFailed? then [RECEIVER_OFF] else []
  }

  function Settled(p: Prepared, fallback: Outcome): Attempt<()> {
    match p
    case Prepared => Finished(Ok(()))
    case PrepareDropped => Dropped
    case PrepareFailed(error) => if fallback == Cancelled then Dropped else Finished(Err(error))
  }

  function PipelineLog(fresh': bool, env: StartEnv): seq<Command> {
    AttemptLog(fresh', env) + SettledLog(AttemptResult(fresh', env))
  }

  function PipelineResult(fresh': bool, env: StartEnv): Attempt<()> {
    Settled(AttemptResult(fresh', env), env.fallback)
  }

  /** Every step of an attempt completes. */
  predicate AllComplete(fresh': bool, env: StartEnv) {
    && env.rx == Completed
    && (fresh' ==> env.off == Completed && env.endpoint.Some? && env.clear == Completed)
  }

  lemma RunsIfAllComplete(fresh': bool, env: StartEnv)
    ensures PipelineResult(fresh', env) == Finished(Ok(())) <==> AllComplete(fresh', env)
  {
  }

  /** The same without the stages. A start sends receiver-off exactly if it needs a new queue, and
      receiver-on exactly if nothing has gone wrong before; if something fails, it sends receiver-off
      once more, and nothing follows a cancellation. */
  lemma PipelineIs(fresh': bool, env: StartEnv)
    ensures var reached := !fresh' || (env.off == Completed && env.endpoint.Some?);
      var failed := if !reached then env.off != Cancelled
                    else env.rx == FailedTransfer || (env.rx == Completed && fresh' && env.clear == FailedTransfer);
      && PipelineLog(fresh', env) == (if fresh' then [RECEIVER_OFF] else [])
           + (if reached then [RECEIVER_RX] else []) + (if failed then [RECEIVER_OFF] else [])
      && PipelineResult(fresh', env) ==
           if AllComplete(fresh', env) then Finished(Ok(()))
           else if failed && env.fallback != Cancelled then Finished(Err(Transfer)) else Dropped
  {
  }

  /** A transfer that did not complete ends the attempt. */
  function Unless(o: Outcome): Prepared {
    if o == Cancelled then PrepareDropped else PrepareFailed(Transfer)
  }

  predicate EndpointUsable(pending: seq<Buffer>, packing: bool) {
    |pending| <= RFONE_TRANSFER_COUNT &&
    forall b :: b in pending ==> b.capacity == ExpectedLen(packing) && b.stamp == 0
  }

  lemma InitializeKeeps(q: QueueState)
    requires q.Inv() && q.Open() && !q.initialized && q.discardRemaining == 0
    ensures Initialized(q).Inv()
  {
  }

  /** The commands one attempt issues, and how it ends. */
  function AttemptLog(fresh': bool, env: StartEnv): seq<Command> {
    if !fresh' then [RECEIVER_RX]
    else if env.off == Completed && env.endpoint.Some? then [RECEIVER_OFF, RECEIVER_RX]
    else [RECEIVER_OFF]
  }

  function AttemptResult(fresh': bool, env: StartEnv): Prepared {
    if fresh' && env.off != Completed then Unless(env.off)
    else if fresh' && env.endpoint.None? then PrepareFailed(Transfer)
    else if env.rx != Completed then Unless(env.rx)
    else if fresh' && env.clear != Completed then Unless(env.clear)
    else Prepared
  }

  lemma WholeBuffer(q: QueueState)
    requires q.Inv()
    ensures q.current.Some? ==> 0 < q.currentLen == ExpectedLen(q.settings.packing) <= |q.current.value.bytes|
  {
  }

  /** A retained queue read under a new decimation. */
  function Redecimated(q: QueueState, decimation: nat): QueueState {
    Adopted(q, q.settings.(decimation := decimation))
  }

  /** The queue once a read has waited for a buffer, if it had to. */
  function Fetched(q: QueueState, pending: bool, env: seq<Event>): QueueState
    requires q.Inv() && q.initialized
  {
    if q.current.Some? || pending then q else FillLoop(q, env).0
  }

  lemma ReleaseKeeps(q: QueueState)
    requires q.Inv()
    ensures q.ReleaseCurrent().Inv() && q.ReleaseCurrent().initialized == q.initialized
    ensures q.ReleaseCurrent().Open() == q.Open() && q.ReleaseCurrent().stats == q.stats
    ensures q.ReleaseCurrent().current.None? && q.ReleaseCurrent().settings == q.settings
    ensures q.ReleaseCurrent().liveDiscards == q.liveDiscards
    ensures q.ReleaseCurrent().discardRemaining == q.discardRemaining
    ensures q.current.Some? ==> 0 < q.currentLen <= |q.current.value.bytes|
  {
    ReleaseKeepsInv(q);
  }

  lemma TakenSplit(c: Option<Buffer>, len: nat, lo: nat, hi: nat)
    requires c.Some? ==> lo <= hi <= len <= |c.value.bytes|
    ensures Taken(c, len, lo, hi) + Taken(c, len, hi, len) == Taken(c, len, lo, len)
    ensures Taken(c, len, len, len) == []
  {
  }

  /** The samples a read has written. */
  function Count(r: ReadResult): nat {
    if r.Ready? && r.result.Ok? then r.result.value else 0
  }

  /** How the wait of a read ends. */
  function FetchEnd(q: QueueState, pending: bool, env: seq<Event>): Fill
    requires q.Inv() && q.initialized
  {
    if q.current.Some? || pending then Filled else FillLoop(q, env).1
  }

  /** And with a change of decimation before it: what is left over is given up first. */
  function ReadEnd(q: QueueState, decimation: nat, pending: bool, env: seq<Event>): Fill
    requires q.Inv() && q.initialized
  {
    AdoptedInv(q, q.settings.(decimation := decimation));
    if q.settings.decimation == decimation then FetchEnd(q, pending, env)
    else FetchEnd(Redecimated(q, decimation), false, env)
  }

  /** How a read must end, by what is left over and by the completions alone. With something left over
      it needs no completion. Otherwise the first `discardRemaining` completions are skipped, good or
      bad; if one of them or the next is missing, the read waits, and if not, the next one decides: a
      whole one is read, a failed one or one of the wrong length is the error that is returned. */
  lemma ReadEnds(q: QueueState, decimation: nat, pending: bool, env: seq<Event>)
    requires q.Inv() && q.initialized && q.Open()
    ensures var end, d := ReadEnd(q, decimation, pending, env), q.discardRemaining;
      var left := decimation == q.settings.decimation && (q.current.Some? || pending);
      var whole := if q.settings.packing then 147_456 else 262_144;
      var reached := |env| > d && forall i :: 0 <= i <= d ==> env[i].Done?;
      && (left ==> end == Filled)
      && (!left && !reached ==> end == Waiting)
      && (!left && reached && !env[d].ok ==> end == Failed(Transfer))
      && (!left && reached && env[d].ok && (env[d].actualLen != whole || whole > |env[d].bytes|) ==>
            end == Failed(Protocol))
      && (!left && reached && env[d].ok && env[d].actualLen == whole <= |env[d].bytes| ==> end == Filled)
  {
    hide QueueState.Inv, FillLoop, Adopted;
    AdoptedInv(q, q.settings.(decimation := decimation));
    AdoptedIs(q, q.settings.(decimation := decimation));
    if q.settings.decimation != decimation {
      FillEnds(Redecimated(q, decimation), env);
    } else if q.current.None? {
      FillEnds(q, env);
    }
  }

  /** And what it brings in: nothing, or the bytes of that completion. */
  lemma ArrivedIs(q: QueueState, env: seq<Event>, d: nat)
    requires q.Inv() && q.initialized && q.Open() && q.current.None? && d == q.discardRemaining
    ensures var reached := |env| > d && forall i :: 0 <= i <= d ==> env[i].Done?;
      var whole := if q.settings.packing then 147_456 else 262_144;
      && (!reached ==> Arrived(q, false, env) == [])
      && (reached && env[d].ok && env[d].actualLen == whole <= |env[d].bytes| ==>
            Arrived(q, false, env) == env[d].bytes[..whole])
  {
    hide QueueState.Inv, FillLoop;
    FillLoopKeeps(q, env);
    FillEnds(q, env);
    if |env| > d && (forall i :: 0 <= i <= d ==> env[i].Done?) && env[d].ok
      && env[d].actualLen == ExpectedLen(q.settings.packing) <= |env[d].bytes| {
      FillDelivers(q, env, d);
    }
  }

  /** What waiting brings in when the old stream has just been given up. */
  ghost function FirstArrival(q: QueueState, decimation: nat, env: seq<Event>): seq<Byte>
    requires q.Inv() && q.initialized
  {
    AdoptedInv(q, q.settings.(decimation := decimation));
    Arrived(Redecimated(q, decimation), false, env)
  }

  /** The bytes that waiting for a buffer brings in. */
  ghost function Arrived(q: QueueState, pending: bool, env: seq<Event>): seq<Byte>
    requires q.Inv() && q.initialized
  {
    if q.current.Some? || pending then []
    else var q' := FillLoop(q, env).0; Taken(q'.current, q'.currentLen, 0, q'.currentLen)
  }

  /** The queue a raw block is taken from: the present one, or after a change of packing a new one. */
  function Refreshed(q: QueueState, desired: ReceiveSettings, env: StartEnv): QueueState {
    if q.settings.packing == desired.packing || env.endpoint.None? then q
    else Initialized(NewQueue(env.endpoint.value, desired))
  }

  /** What a blocking wait for the next block returns, on this queue. */
  ghost predicate BlockResult(r: Result<Option<SampleBlock>>, q: QueueState, env: seq<Event>) {
    && q.Inv() && q.initialized
    && match RefillEnd(q, env) {
         case Waiting => r == Ok(None)
         case Failed(error) => r == Err(error)
         case Filled =>
           Refilled(q, env).Inv() && r.Ok? && r.value.Some? && Ok(r.value.value) == Refilled(q, env).Block()
       }
  }

  lemma RefreshedIs(q: QueueState, desired: ReceiveSettings, env: StartEnv)
    requires q.Inv() && q.initialized && q.Open()
    requires env.endpoint.Some? ==> EndpointUsable(env.endpoint.value, desired.packing)
    ensures var t := Refreshed(q, desired, env);
      && t.Inv() && t.initialized && t.Open()
      && (q.settings.packing == desired.packing ==> t == q)
      && (q.settings.packing != desired.packing && env.endpoint.Some? ==>
            t.discardRemaining == 0 && t.settings == desired && |t.bulkIn.value| == 16)
  {
    if q.settings.packing != desired.packing && env.endpoint.Some? {
      NewQueueInv(env.endpoint.value, desired);
      InitializeKeeps(NewQueue(env.endpoint.value, desired));
    }
  }

  /** A blocking wait returns no block exactly if the completions run out before the first one that
      counts, that of a buffer submitted since the latest stop; its error is what that completion
      says; and a block has that completion's bytes. */
  lemma BlockResultIs(r: Result<Option<SampleBlock>>, q: QueueState, env: seq<Event>)
    requires q.Open() && BlockResult(r, q, env)
    ensures var d := q.discardRemaining;
      var whole := if q.settings.packing then 147_456 else 262_144;
      var reached := |env| > d && forall i :: 0 <= i <= d ==> env[i].Done?;
      && (r == Ok(None) <==> !reached)
      && (r == Err(Transfer) <==> reached && !env[d].ok)
      && (r == Err(Protocol) <==> reached && env[d].ok && (env[d].actualLen != whole || whole > |env[d].bytes|))
      && (r.Ok? && r.value.Some? <==> reached && env[d].ok && env[d].actualLen == whole <= |env[d].bytes|)
      && (r.Ok? && r.value.Some? ==> r.value.value.raw == env[d].bytes[..whole])
  {
    hide QueueState.Inv, QueueState.Block, RefillEnd, Refilled;
    RefillEnds(q, env);
  }

  /** How the wait for a raw block must end, by the completions alone, and whose bytes the block has. */
  lemma RefillEnds(q: QueueState, env: seq<Event>)
    requires q.Inv() && q.initialized && q.Open()
    ensures var end, d := RefillEnd(q, env), q.discardRemaining;
      var whole := if q.settings.packing then 147_456 else 262_144;
      var reached := |env| > d && forall i :: 0 <= i <= d ==> env[i].Done?;
      && (!reached ==> end == Waiting)
      && (reached && !env[d].ok ==> end == Failed(Transfer))
      && (reached && env[d].ok && (env[d].actualLen != whole || whole > |env[d].bytes|) ==> end == Failed(Protocol))
      && (reached && env[d].ok && env[d].actualLen == whole <= |env[d].bytes| ==>
            && end == Filled && Refilled(q, env).Inv() && Refilled(q, env).Block().Ok?
            && Refilled(q, env).Block().value.raw == env[d].bytes[..whole])
  {
    hide QueueState.Inv, FillLoop, QueueState.ReleaseCurrent;
    ReleaseKeeps(q);
    var released := q.ReleaseCurrent();
    FillEnds(released, env);
    FillLoopKeeps(released, env);
    var d := q.discardRemaining;
    if |env| > d && (forall i :: 0 <= i <= d ==> env[i].Done?) && env[d].ok
      && env[d].actualLen == ExpectedLen(q.settings.packing) <= |env[d].bytes| {
      FillDelivers(released, env, d);
    }
  }

  /** How that fill ends. */
  function RefillEnd(q: QueueState, env: seq<Event>): Fill
    requires q.Inv() && q.initialized
  {
    ReleaseKeeps(q);
    FillLoop(q.ReleaseCurrent(), env).1
  }

  /** The queue once the last block has gone back and a fill has been tried. */
  function Refilled(q: QueueState, env: seq<Event>): QueueState
    requires q.Inv() && q.initialized
  {
    ReleaseKeeps(q);
    FillLoop(q.ReleaseCurrent(), env).0
  }

  /** What `start_pipeline` and `begin_read` make of a retained queue. */
  function Adopted(q: QueueState, settings: ReceiveSettings): QueueState {
    (if q.settings.decimation != settings.decimation then q.DiscardCurrent() else q).(settings := settings)
  }

  lemma AdoptedInv(q: QueueState, settings: ReceiveSettings)
    requires q.Inv() && settings.packing == q.settings.packing
    ensures Adopted(q, settings).Inv()
    ensures q.settings.decimation != settings.decimation ==> Adopted(q, settings).current.None?
    ensures q.stats.AtMost(Adopted(q, settings).stats)
  {
    DiscardKeepsInv(q);
  }

  /** Under new settings everything pending stays pending, in its order, and as much of it is still to
      be discarded. */
  lemma AdoptedIs(q: QueueState, settings: ReceiveSettings)
    requires q.Open()
    ensures q.settings.decimation == settings.decimation ==> Adopted(q, settings) == q.(settings := settings)
    ensures q.settings.decimation != settings.decimation ==> Adopted(q, settings).current.None?
    ensures var t := Adopted(q, settings);
      && t.settings == settings && t.epoch == q.epoch && t.initialized == q.initialized && t.Open()
      && t.discardRemaining == q.discardRemaining && q.bulkIn.value <= t.bulkIn.value
      && (q.current.None? ==> t.bulkIn == q.bulkIn && t.stats == q.stats)
      && (q.current.Some? && q.settings.decimation != settings.decimation ==>
            t.bulkIn.value == q.bulkIn.value + [q.current.value.(stamp := q.epoch)]
            && t.stats == q.stats.(dropped := q.stats.dropped + 1))
  {
  }

  lemma CloseTallies(q: QueueState, stats: StreamingStats, retired: nat, stale: nat)
    requires q.Inv()
    requires stats.received + retired == stats.processed + stats.dropped
    requires stats.discardedOnRestart == stale <= stats.dropped
    ensures q.Close().Inv()
    ensures var s := stats.Accumulate(q.stats);
      && s.received + retired + q.liveDiscards == s.processed + s.dropped
      && s.discardedOnRestart == stale + q.staleTaken <= s.dropped
  {
  }
}
