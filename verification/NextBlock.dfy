/** The future behind `next_block` in src/rx/receiver.rs: a raw block is waited for, after a restart
    of the stream if the packing of transfers has been changed. The future can be polled any number
    of times, and the packing can be changed again between two polls. */
module NextBlocks {
  import opened Errors
  import opened Numbers
  import opened Baseband
  import opened Converter
  import opened FirmwareProtocol
  import opened Processing
  import opened RxQueue
  import opened SessionStates
  import opened Receiving

  /** `NextBlockFuture`: a restarting future keeps the settings it read when it began to restart. */
  datatype FutureState = Direct | Restarting(settings: ReceiveSettings, at: RestartAt) | Spent

  datatype BlockPoll = Waits | Delivers(result: Result<SampleBlock>)

  /** Future, receiver and queue together. */
  datatype Snapshot = Snapshot(
    state: FutureState,
    receiver: ReceiverState,
    queue: Option<QueueState>,
    log: seq<Command>)
  {
    ghost predicate Fits() {
      && (queue.Some? ==> queue.value.Inv())
      && (receiver == Running ==> queue.Some? && queue.value.initialized && queue.value.Open())
      && (state.Restarting? ==>
            && Restart(state.at, queue, log).Fits(state.settings) && !state.at.RestartFailed?
            && receiver == (if state.at == AwaitBlock then Running else CleanupRequired)
            && SupportedDecimation(state.settings.decimation))
    }

    predicate PackingChanged(desired: ReceiveSettings) {
      queue.Some? && queue.value.settings.packing != desired.packing
    }

    /** The settings in force at a poll: those a restart has captured, or the present ones. */
    function Governing(desired: ReceiveSettings): ReceiveSettings {
      if state.Restarting? then state.settings else desired
    }

    predicate Usable(desired: ReceiveSettings, env: PollEnv) {
      && SupportedDecimation(desired.decimation)
      && (env.endpoint.Some? ==> EndpointUsable(env.endpoint.value, Governing(desired).packing))
    }

    /** The synchronous beginning of a restart, which only a future that has not begun one makes. */
    function Begun(desired: ReceiveSettings): Snapshot {
      if state.Direct? && PackingChanged(desired) && receiver == Running
      then Snapshot(Restarting(desired, AwaitOff), CleanupRequired, None, log + [RECEIVER_OFF])
      else this
    }

    /** `poll_next_block` and `current_block`. */
    function Fill(env: PollEnv): (Snapshot, BlockPoll)
      requires Fits()
    {
      if receiver != Running then (this.(state := Spent), Delivers(Err(StreamClosed)))
      else
        ReleaseKeeps(queue.value);
        FillLoopKeeps(queue.value.ReleaseCurrent(), env.events);
        var (q, end, _) := FillLoop(queue.value.ReleaseCurrent(), env.events);
        match end
        case Waiting => (this.(queue := Some(q)), Waits)
        case Failed(error) => (Snapshot(Spent, CleanupRequired, None, log), Delivers(Err(error)))
        case Filled => (this.(state := Spent, queue := Some(q)), Delivers(q.Block()))
    }

    /** The restart goes on from the await it is at. */
    function Resumed(env: PollEnv): Snapshot
      requires state.Restarting?
    {
      if state.at == AwaitBlock then this
      else
        var r := Restart(state.at, queue, log).Advance(state.settings, env);
        Snapshot(state.(at := r.at), if r.at == AwaitBlock then Running else CleanupRequired, r.queue, r.log)
    }

    /** One poll. */
    function Poll(desired: ReceiveSettings, env: PollEnv): (Snapshot, BlockPoll)
      requires Fits() && state != Spent && Usable(desired, env)
    {
      ResumedFits(this, desired, env);
      var s := Begun(desired);
      if s.state.Direct? then s.Fill(env)
      else
        var t := s.Resumed(env);
        match t.state.at
        case RestartFailed(error) => (t.(state := Spent), Delivers(Err(error)))
        case AwaitBlock => t.Fill(env)
        case _ => (t, Waits)
    }
  }

  lemma BegunFits(s: Snapshot, desired: ReceiveSettings)
    requires s.Fits() && s.state != Spent && SupportedDecimation(desired.decimation)
    ensures s.Begun(desired).Fits() && s.Begun(desired).state != Spent
  {
    hide QueueState.Inv, SupportedDecimation;
  }

  /** A poll of a restart keeps the captured settings. */
  lemma AdvanceFits(r: Restart, settings: ReceiveSettings, env: PollEnv)
    requires r.Fits(settings) && r.at != AwaitBlock
    requires env.endpoint.Some? ==> EndpointUsable(env.endpoint.value, settings.packing)
    ensures r.Advance(settings, env).Fits(settings)
  {
    hide QueueState.Inv;
    if r.OffEnds(settings, env).at == AwaitRx && r.at == AwaitOff { NewQueueInv(env.endpoint.value, settings); }
    var cleared := r.OffEnds(settings, env).RxEnds(settings, env);
    if cleared.at == AwaitClear { InitializeKeeps(cleared.queue.value); }
  }

  lemma ResumedFits(s: Snapshot, desired: ReceiveSettings, env: PollEnv)
    requires s.Fits() && s.state != Spent && s.Usable(desired, env)
    ensures var b := s.Begun(desired);
      && b.Fits() && b.state != Spent
      && (b.state.Restarting? ==>
            && b.state.settings == s.Governing(desired)
            && b.Resumed(env).state.Restarting? && b.Resumed(env).state.settings == b.state.settings
            && (b.Resumed(env).state.at.RestartFailed? || b.Resumed(env).Fits()))
  {
    hide QueueState.Inv, SupportedDecimation, Restart.Advance, EndpointUsable;
    BegunFits(s, desired);
    var b := s.Begun(desired);
    if b.state.Restarting? && b.state.at != AwaitBlock {
      AdvanceFits(Restart(b.state.at, b.queue, b.log), b.state.settings, env);
      AdvanceReady(Restart(b.state.at, b.queue, b.log), b.state.settings, env);
    }
  }

  lemma AdvanceReady(r: Restart, settings: ReceiveSettings, env: PollEnv)
    ensures r.Advance(settings, env).Fits(settings) && r.Advance(settings, env).at == AwaitBlock ==>
      var q := r.Advance(settings, env).queue; q.Some? && q.value.initialized && q.value.Open()
    ensures r.Advance(settings, env).Fits(settings) ==>
      (r.Advance(settings, env).queue.Some? ==> r.Advance(settings, env).queue.value.Inv())
  {
    hide QueueState.Inv, Restart.Advance;
  }

  // ---- A restart in one poll ----

  /** An answer that is not there, if the future is dropped instead of being polled again. */
  function AsOutcome(a: Answer): Outcome {
    match a
    case NotYet => Cancelled
    case Answered(ok) => if ok then Completed else FailedTransfer
  }

  function AsStart(env: PollEnv): StartEnv {
    StartEnv(AsOutcome(env.off), env.endpoint, AsOutcome(env.rx), AsOutcome(env.clear), AsOutcome(env.fallback))
  }

  /** Polled once and then dropped, if it is not done, a restart has sent the commands, and come to
      the result, of `start_pipeline` cancelled at the same await. */
  lemma RestartAgrees(r: Restart, settings: ReceiveSettings, env: PollEnv)
    requires r.at == AwaitOff && r.Fits(settings) && |r.log| > 0 && r.log[|r.log| - 1] == RECEIVER_OFF
    ensures var t := r.Advance(settings, env);
      && t.log == r.log[..|r.log| - 1] + PipelineLog(true, AsStart(env))
      && (t.at == AwaitBlock <==> PipelineResult(true, AsStart(env)) == Finished(Ok(())))
      && (t.at.RestartFailed? <==> PipelineResult(true, AsStart(env)) == Finished(Err(Transfer)))
      && (t.at.RestartFailed? ==> t.at.error == Transfer)
  {
    hide QueueState.Inv;
    var before := r.log[..|r.log| - 1];
    assert r.log == before + [RECEIVER_OFF];
  }

  // ---- What a poll delivers ----

  lemma FillFits(s: Snapshot, env: PollEnv)
    requires s.Fits() && s.state != Spent && (s.state.Restarting? ==> s.state.at == AwaitBlock)
    ensures var (t, r) := s.Fill(env);
      && (r.Waits? || r.result.Ok? ==> s.receiver == Running)
      && (r.Waits? ==>
            && t.Fits() && t.state == s.state && t.receiver == Running
            && s.queue.Some? && t.queue.Some? && t.queue.value.settings == s.queue.value.settings)
      && (r.Delivers? ==> t.state == Spent && t.Fits())
      && (r.Delivers? && r.result.Ok? ==>
            s.queue.Some? && |r.result.value.raw| == ExpectedLen(s.queue.value.settings.packing))
  {
    hide QueueState.Inv, FillLoop, QueueState.ReleaseCurrent, QueueState.Block;
    if s.receiver == Running {
      ReleaseKeeps(s.queue.value);
      FillLoopKeeps(s.queue.value.ReleaseCurrent(), env.events);
    }
  }

  lemma NothingToResume(s: Snapshot, env: PollEnv)
    requires s.state.Restarting? && s.state.at == AwaitBlock
    ensures s.Resumed(env) == s
  {
  }

  lemma NotRunning(s: Snapshot, env: PollEnv)
    requires s.Fits() && s.receiver != Running
    ensures s.Fill(env) == (s.(state := Spent), Delivers(Err(StreamClosed)))
  {
    hide QueueState.Inv;
  }

  /** A poll of a future that has nothing to restart, or has restarted, decided by the completions
      alone: it waits exactly while the first one that counts has not come; a failed or short one is
      the error it delivers, and retires the stream; a whole one is the block. */
  lemma PollDelivers(s: Snapshot, desired: ReceiveSettings, env: PollEnv)
    requires s.Fits() && s.receiver == Running && s.Usable(desired, env)
    requires (s.state.Direct? && !s.PackingChanged(desired)) || (s.state.Restarting? && s.state.at == AwaitBlock)
    ensures var (t, r) := s.Poll(desired, env);
      var events, d := env.events, s.queue.value.discardRemaining;
      var whole := if s.queue.value.settings.packing then 147_456 else 262_144;
      var reached := |events| > d && forall i :: 0 <= i <= d ==> events[i].Done?;
      && (!reached <==> r == Waits)
      && (!reached ==> t.state == s.state && t.receiver == Running)
      && (reached && !events[d].ok ==> r == Delivers(Err(Transfer)))
      && (reached && events[d].ok && (events[d].actualLen != whole || whole > |events[d].bytes|) ==>
            r == Delivers(Err(Protocol)))
      && (r.Delivers? && r.result.Err? ==> t == Snapshot(Spent, CleanupRequired, None, s.log))
      && (reached && events[d].ok && events[d].actualLen == whole <= |events[d].bytes| ==>
            && r.Delivers? && r.result.Ok? && r.result.value.raw == events[d].bytes[..whole]
            && t.state == Spent && t.receiver == Running)
  {
    hide QueueState.Inv, FillLoop, QueueState.ReleaseCurrent, QueueState.Block, EndpointUsable, SupportedDecimation;
    if s.state.Restarting? { NothingToResume(s, env); }
    RefillEnds(s.queue.value, env.events);
    FillFits(s, env);
  }

  /** One poll. A future that still waits has kept the settings it has captured, or has captured the
      present ones because the packing has changed, or is direct because it has not. A block has
      the size of the settings in force. */
  lemma PollFollows(s: Snapshot, desired: ReceiveSettings, env: PollEnv)
    requires s.Fits() && s.state != Spent && s.Usable(desired, env)
    ensures var (t, r) := s.Poll(desired, env);
      && (r.Waits? ==> t.Fits() && t.state != Spent)
      && (r.Waits? && s.state.Restarting? ==> t.state.Restarting? && t.state.settings == s.state.settings)
      && (r.Waits? && s.state.Direct? && s.PackingChanged(desired) ==>
          t.state.Restarting? && t.state.settings == desired)
      && (r.Waits? && s.state.Direct? && !s.PackingChanged(desired) ==>
            t.state.Direct? && s.queue.Some? && t.queue.Some? && t.queue.value.settings == s.queue.value.settings)
      && (r.Delivers? && r.result.Ok? ==> |r.result.value.raw| == ExpectedLen(s.Governing(desired).packing))
  {
    hide QueueState.Inv, Snapshot.Fill, Snapshot.Resumed, EndpointUsable, SupportedDecimation;
    ResumedFits(s, desired, env);
    var b := s.Begun(desired);
    if b.state.Direct? {
      FillFits(b, env);
    } else {
      var t := b.Resumed(env);
      if t.state.at == AwaitBlock { FillFits(t, env); }
    }
  }

  // ---- Runs of polls ----

  /** The receive settings read by one poll, and what it finds. */
  datatype PollInput = PollInput(desired: ReceiveSettings, env: PollEnv)

  ghost predicate Runnable(s: Snapshot, polls: seq<PollInput>)
    requires s.Fits() && s.state != Spent
    decreases |polls|
  {
    |polls| == 0 ||
    (s.Usable(polls[0].desired, polls[0].env) &&
     (PollFollows(s, polls[0].desired, polls[0].env);
      var (t, r) := s.Poll(polls[0].desired, polls[0].env);
      r.Waits? ==> Runnable(t, polls[1..])))
  }

  /** The first poll that does not leave the future waiting, and what it delivers. */
  ghost function Outcome(s: Snapshot, polls: seq<PollInput>): (o: Option<(nat, Result<SampleBlock>)>)
    requires s.Fits() && s.state != Spent && Runnable(s, polls)
    ensures o.Some? ==> o.value.0 < |polls|
    decreases |polls|
  {
    if |polls| == 0 then None
    else
      PollFollows(s, polls[0].desired, polls[0].env);
      var (t, r) := s.Poll(polls[0].desired, polls[0].env);
      if r.Delivers? then Some((0, r.result))
      else
        var o := Outcome(t, polls[1..]);
        if o.Some? then Some((o.value.0 + 1, o.value.1)) else None
  }

  /** Once a future is restarting, its block has the size of the settings it captured, whatever the
      settings become before it is done. */
  lemma {:induction false} CapturedSize(s: Snapshot, polls: seq<PollInput>)
    requires s.Fits() && s.state.Restarting? && Runnable(s, polls)
    ensures var o := Outcome(s, polls);
      o.Some? && o.value.1.Ok? ==> |o.value.1.value.raw| == ExpectedLen(s.state.settings.packing)
    decreases |polls|
  {
    hide Snapshot.Poll, Snapshot.Fits, Snapshot.Usable;
    if |polls| > 0 {
      PollFollows(s, polls[0].desired, polls[0].env);
      var (t, r) := s.Poll(polls[0].desired, polls[0].env);
      if r.Waits? { CapturedSize(t, polls[1..]); }
    }
  }

  /** The first poll that reads another packing than `packing`, if there is one. */
  function FirstChange(packing: bool, polls: seq<PollInput>): (i: nat)
    ensures i <= |polls|
    ensures forall j :: 0 <= j < i ==> polls[j].desired.packing == packing
    ensures i < |polls| ==> polls[i].desired.packing != packing
  {
    if |polls| == 0 || polls[0].desired.packing != packing then 0 else 1 + FirstChange(packing, polls[1..])
  }

  /** Over all polls of a new future: its block has the size of the packing read by the poll that
      began a restart, which is the first to read another packing than the queue had, or, if none
      did, by the poll that delivers it. So it has the size that the settings call for at its
      delivery if and only if these two polls have read the same packing. */
  lemma {:induction false} BlockSize(s: Snapshot, polls: seq<PollInput>)
    requires s.Fits() && s.state == Direct && s.receiver == Running && Runnable(s, polls)
    ensures var o := Outcome(s, polls);
      o.Some? && o.value.1.Ok? ==>
        var k, size := o.value.0, |o.value.1.value.raw|;
        var change := FirstChange(s.queue.value.settings.packing, polls);
        var captured := polls[if change < k then change else k].desired.packing;
        && size == ExpectedLen(captured)
        && (size == ExpectedLen(polls[k].desired.packing) <==> polls[k].desired.packing == captured)
    decreases |polls|
  {
    hide Snapshot.Poll, Snapshot.Usable, QueueState.Inv;
    if |polls| > 0 {
      PollFollows(s, polls[0].desired, polls[0].env);
      var (t, r) := s.Poll(polls[0].desired, polls[0].env);
      if r.Waits? {
        if s.PackingChanged(polls[0].desired) {
          CapturedSize(t, polls[1..]);
        } else {
          StillRunning(s, polls[0].desired, polls[0].env);
          BlockSize(t, polls[1..]);
        }
      }
    }
  }

  lemma StillRunning(s: Snapshot, desired: ReceiveSettings, env: PollEnv)
    requires s.Fits() && s.state == Direct && s.receiver == Running && s.Usable(desired, env)
      && !s.PackingChanged(desired)
    ensures s.Poll(desired, env).1.Waits? ==> s.Poll(desired, env).0.receiver == Running
  {
    hide QueueState.Inv, EndpointUsable, SupportedDecimation;
    FillFits(s, env);
  }

  // ---- A packing changed back during a restart ----

  const PACKED := ReceiveSettings(true, 1)
  const UNPACKED := ReceiveSettings(false, 1)

  const NOTHING_YET := PollEnv(NotYet, None, NotYet, NotYet, NotYet, [])

  function EverythingAnswered(bytes: seq<Byte>): PollEnv {
    PollEnv(Answered(true), Some([]), Answered(true), Answered(true), NotYet, [Done(true, |bytes|, bytes)])
  }

  /** A running unpacked stream is polled for a block while the settings say packed; it begins to
      restart. Before it is polled again the settings are changed back. The block it then delivers
      is a packed one. */
  lemma PackingChangedBack(s: Snapshot, bytes: seq<Byte>)
    requires s.Fits() && s.state == Direct && s.receiver == Running && !s.queue.value.settings.packing
    requires |bytes| == PACKED_BUFFER_SIZE
    ensures var polls := [PollInput(PACKED, NOTHING_YET), PollInput(UNPACKED, EverythingAnswered(bytes))];
      && Runnable(s, polls)
      && Outcome(s, polls).Some? && Outcome(s, polls).value.0 == 1
      && Outcome(s, polls).value.1.Ok? && Outcome(s, polls).value.1.value.raw == bytes
      && |bytes| != ExpectedLen(UNPACKED.packing)
  {
  }

  // ---- The future object ----

  class NextBlockFuture<F> {
    const receiver: Receiver<F>
    var state: FutureState

    ghost function View(): Snapshot
      reads this, receiver, if receiver.queue.Some? then {receiver.queue.value} else {}
    {
      Snapshot(state, receiver.receiver, receiver.QueueView(), receiver.log)
    }

    /** The receiver is valid whatever the future is waiting for, so the future can be dropped after
        any poll. */
    ghost predicate Valid()
      reads this, receiver, receiver.Footprint()
    {
      receiver.Valid() && receiver.format == RawAdc && View().Fits() && this !in receiver.Footprint()
    }

    constructor (receiver: Receiver<F>)
      requires receiver.Valid() && receiver.format == RawAdc
      ensures Valid() && state == Direct && this.receiver == receiver
    {
      hide IqProcessor.ValidFor, IqProcessor.Aligned, QueueState.Inv, Receiver.Tallied;
      this.receiver := receiver;
      state := Direct;
    }

    /** The synchronous beginning of a restart. */
    method Begin(desired: ReceiveSettings)
      requires Valid() && state.Direct? && receiver.receiver == Running && receiver.PackingChanged(desired)
      requires SupportedDecimation(desired.decimation)
      modifies this`state, receiver.Footprint()
      ensures Valid() && (forall o :: o in receiver.Footprint() ==> o in old(receiver.Footprint()) || fresh(o))
      ensures View() == old(View()).Begun(desired) && receiver.CurrentStats() == old(receiver.CurrentStats())
    {
      hide Receiver.Valid, Receiver.Footprint, Receiver.CurrentStats, QueueState.Inv, SupportedDecimation;
      receiver.BeginRestart();
      state := Restarting(desired, AwaitOff);
    }

    /** The restart goes on. */
    method Resume(env: PollEnv)
      requires Valid() && state.Restarting? && state.at != AwaitBlock && View().Usable(state.settings, env)
      modifies this`state, receiver.Footprint()
      ensures receiver.Valid() && state.Restarting? && state.settings == old(state.settings)
      ensures state.at.RestartFailed? || Valid()
      ensures View().(state := Spent).Fits()
      ensures forall o :: o in receiver.Footprint() ==> o in old(receiver.Footprint()) || fresh(o)
      ensures View() == old(View()).Resumed(env) && receiver.CurrentStats() == old(receiver.CurrentStats())
      ensures receiver.format == RawAdc && this !in receiver.Footprint()
    {
      hide Receiver.Valid, Receiver.Footprint, Receiver.CurrentStats, QueueState.Inv;
      hide SupportedDecimation, EndpointUsable, Restart.Advance;
      ghost var s := View();
      var settings := state.settings;
      AdvanceReady(Restart(s.state.at, s.queue, s.log), settings, env);
      var at := receiver.ResumeRestart(state.at, settings, env);
      state := Restarting(settings, at);
    }

    /** `poll_next_block` and `current_block`. */
    method FillNext(env: PollEnv) returns (r: BlockPoll)
      requires Valid() && state != Spent && (state.Restarting? ==> state.at == AwaitBlock)
      modifies this`state, receiver.Footprint()
      ensures Valid() && (forall o :: o in receiver.Footprint() ==> o in old(receiver.Footprint()) || fresh(o))
      ensures (View(), r) == old(View()).Fill(env)
      ensures old(receiver.CurrentStats()).AtMost(receiver.CurrentStats())
    {
      hide Receiver.Valid, Receiver.Footprint, Receiver.CurrentStats, QueueState.Inv, FillLoop, QueueState.Block;
      hide QueueState.ReleaseCurrent, SupportedDecimation;
      FillFits(View(), env);
      if receiver.receiver != Running { NotRunning(View(), env); }
      var fill := receiver.PollNextBlock(env.events);
      match fill {
        case Waiting => return Waits;
        case Failed(error) =>
          state := Spent;
          return Delivers(Err(error));
        case Filled =>
          state := Spent;
          return Delivers(receiver.queue.value.Block());
      }
    }

    /** `poll`. Polling a spent future is a panic. */
    method Poll(desired: ReceiveSettings, env: PollEnv) returns (r: BlockPoll)
      requires Valid() && state != Spent && View().Usable(desired, env)
      modifies this`state, receiver.Footprint()
      ensures Valid() && (forall o :: o in receiver.Footprint() ==> o in old(receiver.Footprint()) || fresh(o))
      ensures (View(), r) == old(View()).Poll(desired, env)
      ensures old(receiver.CurrentStats()).AtMost(receiver.CurrentStats())
    {
      hide Receiver.Valid, Receiver.Footprint, Receiver.CurrentStats, QueueState.Inv, FillLoop, Snapshot.Fill,
        Snapshot.Resumed;
      hide SupportedDecimation, EndpointUsable;
      ResumedFits(View(), desired, env);
      if state.Direct? && receiver.PackingChanged(desired) {
        if receiver.receiver != Running {
          NotRunning(View(), env);
          state := Spent;
          return Delivers(Err(StreamClosed));
        }
        Begin(desired);
      }
      if state.Restarting? && state.at == AwaitBlock {
        NothingToResume(View(), env);
      }
      if state.Restarting? && state.at != AwaitBlock {
        Resume(env);
        if state.at.RestartFailed? {
          var error := state.at.error;
          state := Spent;
          return Delivers(Err(error));
        }
        if state.at != AwaitBlock {
          return Waits;
        }
      }
      r := FillNext(env);
    }
  }
}
