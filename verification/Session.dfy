/** The shared hardware lifecycle of src/session.rs: the device state and the exclusive stream
    claim behind one lock, and the transitions that operations make on them. The transitions are
    functions, so that the objects here and the whole-driver protocol use the same ones. */
module SessionStates {
  import opened Errors
  import opened Numbers
  import opened FirmwareProtocol

  datatype DeviceLifecycle = Open | Closing | Closed
  datatype ReceiverState = Stopped | CleanupRequired | Running
  datatype ClaimAvailability = Available | Held | ClaimCleanupRequired
  datatype SharedDeviceState = SharedDeviceState(device: DeviceLifecycle, claim: ClaimAvailability)

  /** `begin_start`: whether to go on starting, and the state that a failure or cancellation from
      here on leaves behind. */
  function BeginStart(r: ReceiverState): (ReceiverState, Result<bool>) {
    match r
    case Running => (Running, Ok(false))
    case CleanupRequired => (CleanupRequired, Err(Busy))
    case Stopped => (CleanupRequired, Ok(true))
  }

  /** `begin_stop`: whether there is anything to turn off. */
  function BeginStop(r: ReceiverState): (ReceiverState, bool) {
    if r == Stopped then (Stopped, false) else (CleanupRequired, true)
  }

  /** `begin_shutdown`: whether to send the shutdown commands. */
  function BeginShutdown(s: SharedDeviceState): (SharedDeviceState, Result<bool>) {
    match s.device
    case Closed => (s, Ok(false))
    case Closing => (s, Ok(true))
    case Open => if s.claim == Held then (s, Err(Busy)) else (s.(device := Closing), Ok(true))
  }

  /** What a shutdown leaves when both of its commands have been answered. */
  function EndShutdown(s: SharedDeviceState, ok: bool): SharedDeviceState {
    if ok then SharedDeviceState(Closed, Available) else s
  }

  function Acquire(s: SharedDeviceState): (SharedDeviceState, Result<()>) {
    if s.device != Open then (s, Err(DeviceClosed))
    else if s.claim != Available then (s, Err(Busy))
    else (s.(claim := Held), Ok(()))
  }

  /** What a claim's clean-up leaves. */
  function EndCleanup(s: SharedDeviceState, ok: bool): SharedDeviceState {
    s.(claim := if ok then Available else ClaimCleanupRequired)
  }

  function Unfinished<T>(o: Outcome): Attempt<T>
    requires o != Completed
  {
    if o == Cancelled then Dropped else Finished(Err(Transfer))
  }

  /** `shutdown_hardware`: the commands sent, and the result. Bias power is turned off even when
      turning off the receiver has failed. */
  function ShutdownHardware(off: Outcome, bias: Outcome): (seq<Command>, Attempt<()>) {
    if off == Cancelled then ([RECEIVER_OFF], Dropped)
    else ([RECEIVER_OFF, BIAS_OFF], if bias == Cancelled then Dropped
                                    else if off == Completed && bias == Completed then Finished(Ok(()))
                                    else Finished(Err(Transfer)))
  }

  /** Turning the receiver off, if there is anything to turn off: the receiver state afterwards, the
      commands sent, and the result. Stop, close and clean-up all do this. */
  function TurnOff(r: ReceiverState, off: Outcome): (ReceiverState, seq<Command>, Attempt<()>) {
    if !BeginStop(r).1 then (Stopped, [], Finished(Ok(())))
    else if off == Completed then (Stopped, [RECEIVER_OFF], Finished(Ok(())))
    else (CleanupRequired, [RECEIVER_OFF], Unfinished(off))
  }

  /** A whole shutdown: the state afterwards, the commands sent, and the result. */
  function ShutdownRun(s: SharedDeviceState, off: Outcome, bias: Outcome)
    : (SharedDeviceState, seq<Command>, Attempt<()>)
  {
    var (t, run) := BeginShutdown(s);
    if run.Err? then (t, [], Finished(Err(run.error)))
    else if !run.value then (t, [], Finished(Ok(())))
    else
      var (sent, a) := ShutdownHardware(off, bias);
      (EndShutdown(t, a == Finished(Ok(()))), sent, a)
  }

  // ---- Command sequences ----

  /** `Sequence`: how many commands are sent from the i-th on, and the result, when command `k`
      ends as `ends(k)` says. */
  function SequenceEnd(commands: seq<Command>, ends: nat -> Outcome, i: nat): (r: (nat, Attempt<()>))
    requires i <= |commands|
    ensures i <= r.0 <= |commands|
    decreases |commands| - i
  {
    if i == |commands| then (i, Finished(Ok(())))
    else if ends(i) == Completed then SequenceEnd(commands, ends, i + 1)
    else (i + 1, Unfinished(ends(i)))
  }

  /** A sequence stops at its first failure: everything before the last command sent has
      completed, and it succeeds exactly if every command has been sent and has completed. */
  lemma {:induction false} SequenceStops(commands: seq<Command>, ends: nat -> Outcome, i: nat)
    requires i <= |commands|
    ensures var (sent, a) := SequenceEnd(commands, ends, i);
      && (forall k :: i <= k < sent - 1 ==> ends(k) == Completed)
      && (a == Finished(Ok(())) <==> sent == |commands| && forall k :: i <= k < |commands| ==> ends(k) == Completed)
      && (a != Finished(Ok(())) ==> sent > i && ends(sent - 1) != Completed && a == Unfinished(ends(sent - 1)))
    decreases |commands| - i
  {
    if i < |commands| && ends(i) == Completed {
      SequenceStops(commands, ends, i + 1);
    }
  }

  /** The same without the recursion: if every command completes, all are sent and it succeeds; if
      the k-th is the first that does not, it and those before it are sent, and the end of the k-th is
      the result. */
  ghost predicate SentInOrder(commands: seq<Command>, ends: nat -> Outcome, sent: seq<Command>, a: Attempt<()>) {
    && ((forall k :: 0 <= k < |commands| ==> ends(k) == Completed) ==> sent == commands && a == Finished(Ok(())))
    && (forall k: nat :: FirstToFail(commands, ends, k) ==>
          && sent == commands[..k + 1]
          && a == if ends(k) == Cancelled then Dropped else Finished(Err(Transfer)))
  }

  ghost predicate FirstToFail(commands: seq<Command>, ends: nat -> Outcome, k: nat) {
    k < |commands| && ends(k) != Completed && forall j :: 0 <= j < k ==> ends(j) == Completed
  }

  lemma SequenceIsOrdered(commands: seq<Command>, ends: nat -> Outcome)
    ensures var (n, a) := SequenceEnd(commands, ends, 0);
      SentInOrder(commands, ends, commands[..n], a)
  {
    SequenceStops(commands, ends, 0);
    assert commands[..|commands|] == commands;
  }

  lemma OrderedIs(commands: seq<Command>, ends: nat -> Outcome, sent: seq<Command>, a: Attempt<()>)
    requires SentInOrder(commands, ends, sent, a)
    ensures (forall k :: 0 <= k < |commands| ==> ends(k) == Completed) ==> sent == commands && a == Finished(Ok(()))
    ensures forall k: nat :: FirstToFail(commands, ends, k) ==>
      && k < |commands| && ends(k) != Completed && sent == commands[..k + 1]
      && a == if ends(k) == Cancelled then Dropped else Finished(Err(Transfer))
  {
  }

  /** Some command is the first that does not complete, unless all complete. */
  lemma SomeFailsFirst(commands: seq<Command>, ends: nat -> Outcome)
    ensures (forall k :: 0 <= k < |commands| ==> ends(k) == Completed)
      || exists k: nat :: FirstToFail(commands, ends, k)
  {
    var (n, a) := SequenceEnd(commands, ends, 0);
    SequenceStops(commands, ends, 0);
    if a != Finished(Ok(())) {
      assert FirstToFail(commands, ends, n - 1);
    }
  }

  // ---- The session object ----

  class Session {
    var state: SharedDeviceState
    var receive: ReceiveSettings
    /** Control commands sent so far: instrumentation. */
    var log: seq<Command>

    constructor ()
      ensures state == SharedDeviceState(Open, Available) && receive == ReceiveSettings(false, 1) && log == []
    {
      state := SharedDeviceState(Open, Available);
      receive := ReceiveSettings(false, 1);
      log := [];
    }

    method StartShutdown() returns (r: Result<bool>)
      modifies this`state
      ensures (state, r) == BeginShutdown(old(state))
    {
      match state.device {
        case Closed => return Ok(false);
        case Closing => return Ok(true);
        case Open =>
          if state.claim == Held {
            return Err(Busy);
          }
          state := state.(device := Closing);
          return Ok(true);
      }
    }

    /** `shutdown`. It is refused while the claim is held; once under way only success ends it, in
        `Closed`, and nothing is sent after that. */
    method Shutdown(off: Outcome, bias: Outcome) returns (a: Attempt<()>)
      modifies this`state, this`log
      ensures old(state).device == Closed ==> a == Finished(Ok(())) && state == old(state) && log == old(log)
      ensures old(state).device == Open && old(state).claim == Held ==>
        a == Finished(Err(Busy)) && state == old(state) && log == old(log)
      ensures old(state).device != Closed && !(old(state).device == Open && old(state).claim == Held) ==>
        && a == ShutdownHardware(off, bias).1 && log == old(log) + ShutdownHardware(off, bias).0
        && state == if a == Finished(Ok(())) then SharedDeviceState(Closed, Available)
            else old(state).(device := Closing)
      ensures a == Finished(Ok(())) <==> state.device == Closed
      ensures state == ShutdownRun(old(state), off, bias).0 && a == ShutdownRun(old(state), off, bias).2
      ensures log == old(log) + ShutdownRun(old(state), off, bias).1
    {
      var run := StartShutdown();
      if run.Err? {
        return Finished(Err(run.error));
      }
      if !run.value {
        return Finished(Ok(()));
      }
      log := log + [RECEIVER_OFF];
      if off == Cancelled {
        return Dropped;
      }
      log := log + [BIAS_OFF];
      if bias == Cancelled {
        return Dropped;
      }
      if off != Completed || bias != Completed {
        return Finished(Err(Transfer));
      }
      state := SharedDeviceState(Closed, Available);
      return Finished(Ok(()));
    }

    /** `Sequence`, polled or waited to its end. */
    method Send(commands: seq<Command>, ends: nat -> Outcome) returns (a: Attempt<()>)
      modifies this`log
      ensures a == SequenceEnd(commands, ends, 0).1
      ensures log == old(log) + commands[..SequenceEnd(commands, ends, 0).0]
      ensures old(log) <= log && SentInOrder(commands, ends, log[|old(log)|..], a)
    {
      hide SentInOrder;
      SequenceIsOrdered(commands, ends);
      var i := 0;
      while i < |commands|
        invariant 0 <= i <= |commands| && log == old(log) + commands[..i]
        invariant SequenceEnd(commands, ends, 0) == SequenceEnd(commands, ends, i)
      {
        log := log + [commands[i]];
        assert log == old(log) + commands[..i + 1];
        if ends(i) != Completed {
          return Unfinished(ends(i));
        }
        i := i + 1;
      }
      return Finished(Ok(()));
    }

    /** `apply`: nothing is sent unless the device is open, and the receive settings are replaced
        only when every command has completed. */
    method Apply(commands: seq<Command>, settings: Option<ReceiveSettings>, ends: nat -> Outcome)
        returns (a: Attempt<()>)
      modifies this`receive, this`log
      ensures (a, log, receive) == Applied(old(state), old(log), old(receive), commands, settings, ends)
      ensures state.device != Open ==> a == Finished(Err(DeviceClosed)) && log == old(log)
      ensures state.device == Open ==> old(log) <= log && SentInOrder(commands, ends, log[|old(log)|..], a)
      ensures receive == if a == Finished(Ok(())) && settings.Some? then settings.value else old(receive)
    {
      if state.device != Open {
        return Finished(Err(DeviceClosed));
      }
      a := Send(commands, ends);
      if a == Finished(Ok(())) && settings.Some? {
        receive := settings.value;
      }
    }

    /** `setup` in `initialize`: the metadata queries, and the configuration if they all complete. */
    method Setup(queries: nat -> Outcome, commands: seq<Command>, settings: ReceiveSettings, ends: nat -> Outcome)
        returns (a: Attempt<()>)
      requires state == SharedDeviceState(Open, Available) && log == []
      modifies this`receive, this`log
      ensures SentInOrder(METADATA + commands, Opening(queries, ends), log, a)
      ensures receive == if a == Finished(Ok(())) then settings else old(receive)
    {
      hide SentInOrder, SequenceEnd, Opening;
      a := Send(METADATA, queries);
      assert log[0..] == log;
      ghost var asked, b := log, a;
      if a == Finished(Ok(())) {
        a := Apply(commands, Some(settings), ends);
      }
      OpeningIs(queries, commands, ends, asked, b, log[|asked|..], a);
      assert asked + log[|asked|..] == log;
    }

    /** `initialize`: metadata, then the first configuration. Everything is sent in order up to the
        first transfer that does not complete. If that one fails, both shutdown commands follow it
        before the error is reported, the second even if the first has failed; if it is cancelled,
        nothing follows. */
    method Initialize(queries: nat -> Outcome, commands: seq<Command>, settings: ReceiveSettings, ends: nat -> Outcome,
                      off: Outcome, bias: Outcome) returns (a: Attempt<()>)
      requires state == SharedDeviceState(Open, Available) && log == []
      modifies this
      ensures (forall k :: 0 <= k < |METADATA + commands| ==> Opening(queries, ends)(k) == Completed) ==>
        a == Finished(Ok(())) && state == old(state) && receive == settings && log == METADATA + commands
      ensures forall k: nat :: FirstToFail(METADATA + commands, Opening(queries, ends), k) ==>
        && receive == old(receive)
        && (Opening(queries, ends)(k) == Cancelled ==>
              a == Dropped && state == old(state) && log == (METADATA + commands)[..k + 1])
        && (Opening(queries, ends)(k) == FailedTransfer ==>
              && a == (if off == Cancelled || bias == Cancelled then Dropped else Finished(Err(Transfer)))
              && log == (METADATA + commands)[..k + 1] + [RECEIVER_OFF] + (if off == Cancelled then [] else [BIAS_OFF])
              && state == SharedDeviceState(if off == Completed == bias then Closed else Closing, Available))
    {
      hide SentInOrder, FirstToFail, Opening, ShutdownRun;
      a := Setup(queries, commands, settings, ends);
      OrderedIs(METADATA + commands, Opening(queries, ends), log, a);
      if a.Finished? && a.result.Err? {
        var shut := Shutdown(off, bias);
        if shut.Dropped? {
          return Dropped;
        }
      }
    }

    /** `drop`, by the last owner: both commands are attempted unless the device is closed. */
    method DropSession(off: Outcome, bias: Outcome)
      requires off != Cancelled && bias != Cancelled
      modifies this`log
      ensures log == old(log) + (if state.device == Closed then [] else [RECEIVER_OFF, BIAS_OFF])
    {
      if state.device == Closed {
        return;
      }
      log := log + [RECEIVER_OFF];
      log := log + [BIAS_OFF];
    }
  }

  /** How the transfers of opening a device end: three queries come first. */
  function Opening(queries: nat -> Outcome, ends: nat -> Outcome): nat -> Outcome {
    (k: nat) => if k < 3 then queries(k) else ends(k - 3)
  }

  /** The two halves of opening a device are one sequence. */
  lemma OpeningIs(queries: nat -> Outcome, commands: seq<Command>, ends: nat -> Outcome,
                  asked: seq<Command>, b: Attempt<()>, sent: seq<Command>, a: Attempt<()>)
    requires SentInOrder(METADATA, queries, asked, b)
    requires if b == Finished(Ok(())) then SentInOrder(commands, ends, sent, a) else sent == [] && a == b
    ensures SentInOrder(METADATA + commands, Opening(queries, ends), asked + sent, a)
  {
    var both, all := Opening(queries, ends), METADATA + commands;
    assert forall k :: 0 <= k < 3 ==> queries(k) == both(k);
    assert forall k :: 0 <= k ==> ends(k) == both(k + 3);
    forall k: nat | FirstToFail(all, both, k)
      ensures asked + sent == all[..k + 1] && a == if both(k) == Cancelled then Dropped else Finished(Err(Transfer))
    {
      if k < 3 {
        assert FirstToFail(METADATA, queries, k);
      } else {
        assert FirstToFail(commands, ends, k - 3);
      }
    }
  }

  /** The three metadata queries of `device_info`. */
  const METADATA: seq<Command> :=
      [Command(BoardIdRead, 0), Command(VersionStringRead, 0), Command(BoardPartIdSerialNoRead, 0)]

  /** The effect of `apply` on the log and the receive settings. */
  function Applied(s: SharedDeviceState, log: seq<Command>, receive: ReceiveSettings, commands: seq<Command>,
                   settings: Option<ReceiveSettings>, ends: nat -> Outcome)
    : (Attempt<()>, seq<Command>, ReceiveSettings)
  {
    if s.device != Open then (Finished(Err(DeviceClosed)), log, receive)
    else
      var (sent, a) := SequenceEnd(commands, ends, 0);
      (a, log + commands[..sent], if a == Finished(Ok(())) && settings.Some? then settings.value else receive)
  }

  /** A stream's exclusive claim on the session. */
  class RxStreamClaim {
    const shared: Session
    var receiver: ReceiverState
    var cleanupArmed: bool

    constructor (shared: Session)
      ensures this.shared == shared && receiver == Stopped && cleanupArmed
    {
      this.shared := shared;
      receiver := Stopped;
      cleanupArmed := true;
    }

    /** `acquire`. */
    static method AcquireClaim(shared: Session) returns (r: Result<RxStreamClaim>)
      modifies shared`state
      ensures shared.state == Acquire(old(shared.state)).0
      ensures r.Ok? <==> old(shared.state) == SharedDeviceState(Open, Available)
      ensures r.Err? ==> shared.state == old(shared.state) && r.error == Acquire(old(shared.state)).1.error
      ensures r.Err? ==> r.error == if shared.state.device == Open then Busy else DeviceClosed
      ensures r.Ok? ==>
        fresh(r.value) && r.value.shared == shared && r.value.receiver == Stopped && r.value.cleanupArmed
    {
      if shared.state.device != Open {
        return Err(DeviceClosed);
      }
      if shared.state.claim != Available {
        return Err(Busy);
      }
      shared.state := shared.state.(claim := Held);
      var c := new RxStreamClaim(shared);
      return Ok(c);
    }

    /** `close`: the claim is released only by a receiver-off that completes; otherwise it stays
        held and its drop clean-up stays armed. */
    method Close(off: Outcome) returns (a: Attempt<()>)
      modifies this`receiver, this`cleanupArmed, shared`state, shared`log
      ensures a == TurnOff(old(receiver), off).2 && receiver == TurnOff(old(receiver), off).0
      ensures shared.log == old(shared.log) + TurnOff(old(receiver), off).1
      ensures a == Finished(Ok(())) <==> old(receiver) == Stopped || off == Completed
      ensures a == Finished(Ok(())) ==>
        receiver == Stopped && !cleanupArmed && shared.state == old(shared.state).(claim := Available)
      ensures a != Finished(Ok(())) ==>
        receiver == CleanupRequired && cleanupArmed == old(cleanupArmed) && shared.state == old(shared.state)
    {
      var (r, run) := BeginStop(receiver);
      receiver := r;
      if run {
        shared.log := shared.log + [RECEIVER_OFF];
        if off != Completed {
          return Unfinished(off);
        }
      }
      receiver := Stopped;
      shared.state := shared.state.(claim := Available);
      cleanupArmed := false;
      return Finished(Ok(()));
    }

    /** `drop` and `cleanup`: run to their end, they give the claim up, as available only if the
        receiver is known to be off. */
    method Drop(off: Outcome)
      requires off != Cancelled
      modifies this`receiver, this`cleanupArmed, shared`state, shared`log
      ensures !old(cleanupArmed) ==> shared.state == old(shared.state) && shared.log == old(shared.log)
      ensures old(cleanupArmed) ==>
        && shared.state == EndCleanup(old(shared.state), old(receiver) == Stopped || off == Completed)
        && (old(receiver) == Stopped || off == Completed <==> TurnOff(old(receiver), off).2 == Finished(Ok(())))
        && shared.log == old(shared.log) + TurnOff(old(receiver), off).1
      ensures !cleanupArmed
    {
      if !cleanupArmed {
        return;
      }
      cleanupArmed := false;
      var (r, run) := BeginStop(receiver);
      receiver := r;
      if run {
        shared.log := shared.log + [RECEIVER_OFF];
      }
      shared.state := shared.state.(claim := if !run || off == Completed then Available else ClaimCleanupRequired);
    }
  }
}
