/** The whole-driver lifecycle protocol of src/session.rs and src/rx/receiver.rs: device, claim,
    streams and their operations, one step per control transfer. Between the moment a transfer is
    sent and the moment it ends, anything else may happen; it ends completed, failed or
    cancelled, and in the last two cases it may or may not have taken effect. */
module Lifecycle {
  import opened Errors
  import opened Numbers
  import opened FirmwareProtocol
  import opened SessionStates
  import Receiving

  const BIAS_ON := Command(SetRfBiasCmd, 1)

  /** What the owner of a claim is doing: nothing, or waiting for one transfer of an operation. A
      close operation may exist without having been polled, and so may a clean-up. */
  datatype Phase =
    | Idle
    | StartOff | StartRx(fresh': bool) | StartClear | StartFallback
    | StopOff
    | CloseUnpolled | CloseOff
    | CleanupUnpolled(needsOff: bool) | CleanupOff

  datatype Holder = Holder(receiver: ReceiverState, phase: Phase)

  /** What the device handle is doing. It is borrowed mutably, so one thing at a time. */
  datatype Task = NoTask | Opening | Configuring | ShutOff | ShutBias(offOk: bool)

  datatype DropPhase = Alive | DropOff | DropBias | Gone

  /** `on` and `bias` are the hardware; `mayOn` and `mayBias` say whether a command that turns
      them on has been sent since the last command that turned them off for certain. */
  datatype Driver = Driver(
    shared: SharedDeviceState,
    holders: map<nat, Holder>,
    task: Task,
    handle: bool,
    drop: DropPhase,
    on: bool, mayOn: bool,
    bias: bool, mayBias: bool,
    log: seq<Command>)

  datatype Event =
    | AcquireClaim(id: nat)
    | Start(id: nat, fresh': bool)
    | RestartPacking(id: nat)
    | ReadFailed(id: nat)
    | Stop(id: nat)
    | Close(id: nat)
    | Poll(id: nat)
    | DropHolder(id: nat)
    | TransferEnd(id: nat, o: Outcome, took: bool, endpoint: bool)
    | Configure | ConfigTransfer(c: Command, o: Outcome, took: bool) | ConfigDone
    | Shutdown | ShutdownEnd(o: Outcome, took: bool)
    | DropHandle
    | DropSession | DropEnd(took: bool, ok: bool)

  // ---- Commands and their effect ----

  predicate OnlyFlags(s: Driver, t: Driver) {
    t.holders == s.holders && t.task == s.task && t.handle == s.handle && t.drop == s.drop
  }

  function Send(s: Driver, c: Command): (t: Driver)
    ensures OnlyFlags(s, t) && t.shared == s.shared && t.on == s.on && t.bias == s.bias && (s.mayBias ==> t.mayBias)
    ensures t.mayOn == (s.mayOn || c == RECEIVER_RX) && t.log == s.log + [c]
  {
    s.(log := s.log + [c], mayOn := s.mayOn || c == RECEIVER_RX, mayBias := s.mayBias || c == BIAS_ON)
  }

  function Ended(s: Driver, c: Command, o: Outcome, took: bool): (t: Driver)
    ensures OnlyFlags(s, t) && t.shared == s.shared && t.log == s.log
    ensures t.mayOn == (s.mayOn && !(o == Completed && c == RECEIVER_OFF))
    ensures t.on ==> s.on || c == RECEIVER_RX
    ensures c == RECEIVER_OFF && o == Completed ==> !t.on
    ensures c == BIAS_OFF && o == Completed ==> !t.bias && !t.mayBias
    ensures c.request == ReceiverMode ==> t.bias == s.bias && t.mayBias == s.mayBias
    ensures (s.bias ==> s.mayBias) && (c == BIAS_ON ==> s.mayBias) ==> t.bias ==> t.mayBias
  {
    var effect := o == Completed || took;
    s.(on := if effect && c.request == ReceiverMode then c == RECEIVER_RX else s.on,
       mayOn := s.mayOn && !(o == Completed && c == RECEIVER_OFF),
       bias := if effect && c.request == SetRfBiasCmd then c == BIAS_ON else s.bias,
       mayBias := s.mayBias && !(o == Completed && c == BIAS_OFF))
  }

  // ---- Steps of a claim's owner ----

  function Put(s: Driver, id: nat, h: Holder): (t: Driver)
    ensures t.shared == s.shared && t.log == s.log && t.task == s.task
  {
    s.(holders := s.holders[id := h])
  }

  /** What is left of an owner after a step, with the rest of the driver; no owner means that the
      claim has been given up. */
  function Settle(r: (Driver, Option<Holder>), id: nat): (t: Driver)
    ensures t.shared == r.0.shared
  {
    if r.1.Some? then Put(r.0, id, r.1.value) else r.0.(holders := r.0.holders - {id})
  }

  function Fallback(s: Driver): (Driver, Holder) {
    (Send(s, RECEIVER_OFF), Holder(CleanupRequired, StartFallback))
  }

  /** `start_pipeline`. */
  function StartPipeline(s: Driver, fresh': bool): (r: (Driver, Holder))
    ensures r.0.shared == s.shared
  {
    if fresh' then (Send(s, RECEIVER_OFF), Holder(CleanupRequired, StartOff))
    else (Send(s, RECEIVER_RX), Holder(CleanupRequired, StartRx(false)))
  }

  /** `cleanup`: the operation owns what is left of the claim, which stays held. */
  function BeginCleanup(receiver: ReceiverState): Holder {
    var (r, needsOff) := BeginStop(receiver);
    Holder(r, CleanupUnpolled(needsOff))
  }

  /** The first poll of a close operation or of a clean-up. */
  function FirstPoll(s: Driver, h: Holder): (r: (Driver, Option<Holder>))
    ensures r.0.shared.device == s.shared.device
  {
    match h.phase
    case CloseUnpolled =>
      var (r, run) := BeginStop(h.receiver);
      if run then (Send(s, RECEIVER_OFF), Some(Holder(r, CloseOff)))
      else (s.(shared := s.shared.(claim := Available)), None)
    case CleanupUnpolled(needsOff) =>
      if needsOff then (Send(s, RECEIVER_OFF), Some(Holder(h.receiver, CleanupOff)))
      else (s.(shared := EndCleanup(s.shared, true)), None)
    case _ => (s, Some(h))
  }

  predicate Starting(phase: Phase) {
    phase.StartOff? || phase.StartRx? || phase.StartClear? || phase.StartFallback?
  }

  /** A transfer of a start attempt ends. `endpoint` says whether the bulk endpoint can be had. */
  function StartStep(s: Driver, h: Holder, o: Outcome, took: bool, endpoint: bool): (r: (Driver, Holder))
    ensures r.0.shared == s.shared
  {
    hide Send, Ended;
    match h.phase
    case StartOff =>
      var off := Ended(s, RECEIVER_OFF, o, took);
      if o == Cancelled then (off, Holder(CleanupRequired, Idle))
      else if o == Completed && endpoint then (Send(off, RECEIVER_RX), Holder(CleanupRequired, StartRx(true)))
      else Fallback(off)
    case StartRx(fresh') =>
      var rx := Ended(s, RECEIVER_RX, o, took);
      if o == Cancelled then (rx, Holder(CleanupRequired, Idle))
      else if o == FailedTransfer then Fallback(rx)
      else if fresh' then (rx, Holder(CleanupRequired, StartClear))
      else (rx, Holder(Running, Idle))
    case StartClear =>
      if o == Cancelled then (s, Holder(CleanupRequired, Idle))
      else if o == FailedTransfer then Fallback(s)
      else (s, Holder(Running, Idle))
    case StartFallback => (Ended(s, RECEIVER_OFF, o, took), Holder(CleanupRequired, Idle))
    case _ => (s, h)
  }

  /** The receiver-off of a stop, a close operation or a clean-up ends. */
  function OffStep(s: Driver, h: Holder, o: Outcome, took: bool): (r: (Driver, Option<Holder>))
    ensures r.0.shared.device == s.shared.device
  {
    hide Send, Ended;
    var off := Ended(s, RECEIVER_OFF, o, took);
    match h.phase
    case StopOff => (off, Some(Holder(if o == Completed then Stopped else CleanupRequired, Idle)))
    case CloseOff =>
      if o == Completed then (off.(shared := s.shared.(claim := Available)), None)
      else (off, Some(BeginCleanup(CleanupRequired)))
    case CleanupOff =>
      if o == Cancelled then (off, Some(h))
      else (off.(shared := EndCleanup(s.shared, o == Completed)), None)
    case _ => (s, Some(h))
  }

  predicate OwnerEvent(e: Event) {
    || e.Start? || e.RestartPacking? || e.ReadFailed? || e.Stop? || e.Close?
    || e.Poll? || e.DropHolder? || e.TransferEnd?
  }

  /** The owner begins an operation, an operation that owns the claim begins, or the transfer that
      either waits for ends. */
  function OwnerStep(s: Driver, h: Holder, e: Event): (r: (Driver, Option<Holder>))
    requires OwnerEvent(e)
    ensures r.0.shared.device == s.shared.device
  {
    hide Send, StartStep, OffStep, FirstPoll;
    match e
    case Start(_, fresh') =>
      if h.phase == Idle && BeginStart(h.receiver).1 == Ok(true) then Going(StartPipeline(s, fresh')) else (s, Some(h))
    case RestartPacking(_) => if h == Holder(Running, Idle) then Going(StartPipeline(s, true)) else (s, Some(h))
    case ReadFailed(_) => (s, Some(if h == Holder(Running, Idle) then Holder(CleanupRequired, Idle) else h))
    case Stop(_) =>
      if h.phase == Idle && BeginStop(h.receiver).1
      then (Send(s, RECEIVER_OFF), Some(Holder(CleanupRequired, StopOff))) else (s, Some(h))
    case Close(_) => (s, Some(if h.phase == Idle then Holder(h.receiver, CloseUnpolled) else h))
    case Poll(_) => FirstPoll(s, h)
    case DropHolder(_) => (s, Some(if h.phase == Idle || h.phase == CloseUnpolled then BeginCleanup(h.receiver) else h))
    case TransferEnd(_, o, took, endpoint) =>
      if Starting(h.phase) then Going(StartStep(s, h, o, took, endpoint)) else OffStep(s, h, o, took)
  }

  function Going(r: (Driver, Holder)): (Driver, Option<Holder>) { (r.0, Some(r.1)) }

  // ---- Steps of the device handle and of the session ----

  function ShutdownStep(s: Driver, o: Outcome, took: bool): (t: Driver)
    ensures t.holders == s.holders
  {
    match s.task
    case ShutOff =>
      var t := Ended(s, RECEIVER_OFF, o, took);
      if o == Cancelled then t.(task := NoTask)
      else Send(t, BIAS_OFF).(task := ShutBias(o == Completed))
    case ShutBias(offOk) =>
      var t := Ended(s, BIAS_OFF, o, took).(task := NoTask);
      if o == Completed && offOk then t.(shared := EndShutdown(s.shared, true)) else t
    case _ => s
  }

  function ShutdownStart(s: Driver): (t: Driver)
    ensures t.holders == s.holders
  {
    var (shared, run) := BeginShutdown(s.shared);
    var t := s.(shared := shared, task := NoTask);
    if run == Ok(true) then Send(t, RECEIVER_OFF).(task := ShutOff) else t
  }

  /** One transfer of a configuration. The first failure ends it, and if it was the one made while
      opening, shutdown follows. */
  function ConfigStep(s: Driver, c: Command, o: Outcome, took: bool): (t: Driver)
    ensures t.holders == s.holders
  {
    var t := Ended(Send(s, c), c, o, took);
    if o == Completed then t
    else if o == FailedTransfer && s.task == Opening then ShutdownStart(t)
    else t.(task := NoTask)
  }

  /** The session's last owner is gone. */
  predicate Unowned(s: Driver) { !s.handle && s.task == NoTask && s.holders == map[] }

  /** Steps of the device handle. */
  function HandleStep(s: Driver, e: Event): (t: Driver)
    ensures t.holders == s.holders
  {
    hide Send, Ended, ShutdownStart, ShutdownStep, ConfigStep;
    match e
    case Configure => if s.handle && s.task == NoTask && s.shared.device == Open then s.(task := Configuring) else s
    case ConfigTransfer(c, o, took) =>
      if (s.task == Configuring || s.task == Opening) && c.request != ReceiverMode then ConfigStep(s, c, o, took) else s
    case ConfigDone =>
      if s.task == Configuring then s.(task := NoTask)
      else if s.task == Opening then s.(task := NoTask, handle := true)
      else s
    case Shutdown => if s.handle && s.task == NoTask then ShutdownStart(s) else s
    case ShutdownEnd(o, took) => ShutdownStep(s, o, took)
    case DropHandle => if s.task == NoTask then s.(handle := false) else s
    case _ => s
  }

  /** Steps of the drop of the session. */
  function DropStep(s: Driver, e: Event): (t: Driver)
    ensures t.holders == s.holders && t.shared == s.shared && t.task == s.task
  {
    hide Send, Ended;
    match e
    case DropSession =>
      if Unowned(s) && s.drop == Alive then
        if s.shared.device == Closed then s.(drop := Gone) else Send(s, RECEIVER_OFF).(drop := DropOff)
      else s
    case DropEnd(took, ok) =>
      var o := if ok then Completed else FailedTransfer;
      if s.drop == DropOff then Send(Ended(s, RECEIVER_OFF, o, took), BIAS_OFF).(drop := DropBias)
      else if s.drop == DropBias then Ended(s, BIAS_OFF, o, took).(drop := Gone)
      else s
    case _ => s
  }

  predicate DropEvent(e: Event) { e.DropSession? || e.DropEnd? }

  /** One event; an event that cannot occur in a state changes nothing. */
  function Next(s: Driver, e: Event): Driver {
    if OwnerEvent(e) then
      if e.id in s.holders then Settle(OwnerStep(s, s.holders[e.id], e), e.id) else s
    else if e.AcquireClaim? then
      var (shared, r) := Acquire(s.shared);
      if s.handle && e.id !in s.holders && r.Ok? then Put(s.(shared := shared), e.id, Holder(Stopped, Idle)) else s
    else if DropEvent(e) then DropStep(s, e)
    else HandleStep(s, e)
  }

  function Run(s: Driver, events: seq<Event>): Driver
    decreases |events|
  {
    if |events| == 0 then s else Run(Next(s, events[0]), events[1..])
  }

  /** A USB device that has just been opened, with the receiver off. */
  const OPENED := Driver(SharedDeviceState(Open, Available), map[], Opening, false, Alive, false, false, false,
      false, [])

  // ---- The invariant ----

  /** Claim exclusivity: the claim is held exactly while one stream, close operation or clean-up
      exists; there is never a second one; and the device is open meanwhile. */
  ghost predicate Exclusive(s: Driver) {
    && (forall a, b :: a in s.holders && b in s.holders ==> a == b)
    && (s.shared.claim == Held <==> exists id :: id in s.holders)
    && (s.shared.claim == Held ==> s.shared.device == Open)
  }

  predicate Coherent(h: Holder) {
    match h.phase
    case Idle => true
    case CloseUnpolled => true
    case CleanupUnpolled(needsOff) => h.receiver == if needsOff then CleanupRequired else Stopped
    case _ => h.receiver == CleanupRequired
  }

  /** The receiver is never forgotten: if it may be on, someone is bound to turn it off. */
  ghost predicate Remembered(s: Driver) {
    && (s.on ==> s.mayOn) && (s.bias ==> s.mayBias)
    && (s.mayOn ==>
          s.shared.claim == ClaimCleanupRequired || exists id :: id in s.holders && s.holders[id].receiver != Stopped)
    && (forall id :: id in s.holders ==> Coherent(s.holders[id]) && (s.holders[id].phase.StartRx? ==> s.mayOn))
  }

  predicate Orderly(s: Driver) {
    && (s.shared.device == Closed ==> !s.mayOn && !s.mayBias && s.task == NoTask && s.shared.claim == Available)
    && (s.task.ShutOff? || s.task.ShutBias? ==> s.shared.device == Closing)
    && (s.task == ShutBias(true) ==> !s.mayOn)
    && (s.task == Configuring || s.task == Opening ==> s.shared.device == Open)
    && (s.task == Opening ==> !s.handle && s.shared.claim == Available)
    && (s.drop != Alive ==> !s.handle && s.task == NoTask && s.shared.claim != Held)
    && (s.drop == DropOff ==> |s.log| >= 1 && s.log[|s.log| - 1] == RECEIVER_OFF && s.shared.device != Closed)
    && (s.drop == DropBias || (s.drop == Gone && s.shared.device != Closed) ==>
          |s.log| >= 2 && s.log[|s.log| - 2] == RECEIVER_OFF && s.log[|s.log| - 1] == BIAS_OFF)
    && (s.drop == DropBias ==> s.shared.device != Closed)
  }

  ghost predicate Inv(s: Driver) {
    Exclusive(s) && Remembered(s) && Orderly(s)
  }

  // ---- Every step keeps the invariant ----

  /** What the invariant says while a claim has an owner. */
  lemma WhileHeld(s: Driver, id: nat)
    requires Inv(s) && id in s.holders
    ensures s.shared == SharedDeviceState(Open, Held) && s.drop == Alive && (s.on ==> s.mayOn) && (s.bias ==> s.mayBias)
    ensures Coherent(s.holders[id]) && (s.holders[id].receiver == Stopped ==> !s.mayOn)
    ensures s.holders[id].phase.StartRx? ==> s.mayOn
    ensures s.task == NoTask || s.task == Configuring
    ensures s.holders == map[id := s.holders[id]]
  {
  }

  predicate SameElsewhere(s: Driver, t: Driver) {
    && OnlyFlags(s, t) && t.shared.device == s.shared.device && (t.on ==> t.mayOn) && (t.bias ==> t.mayBias)
  }

  predicate Bound(t: Driver, h: Holder) {
    Coherent(h) && (t.mayOn ==> h.receiver != Stopped) && (h.phase.StartRx? ==> t.mayOn)
  }

  /** The owner goes on to another phase, still bound to turn the receiver off if it may be on. */
  lemma Stays(s: Driver, t: Driver, id: nat, h: Holder)
    requires Inv(s) && id in s.holders && SameElsewhere(s, t) && t.shared == s.shared && Bound(t, h)
    ensures Inv(Put(t, id, h))
  {
    WhileHeld(s, id);
    assert id in Put(t, id, h).holders;
  }

  /** The owner gives the claim up. */
  lemma Leaves(s: Driver, t: Driver, id: nat)
    requires Inv(s) && id in s.holders && SameElsewhere(s, t)
    requires t.shared.claim != Held && (t.mayOn ==> t.shared.claim == ClaimCleanupRequired)
    ensures Inv(Settle((t, None), id))
  {
    WhileHeld(s, id);
  }

  lemma StartStepKeepsInv(s: Driver, id: nat, o: Outcome, took: bool, endpoint: bool)
    requires Inv(s) && id in s.holders
    ensures var (t, h) := StartStep(s, s.holders[id], o, took, endpoint); Inv(Put(t, id, h))
  {
    hide Inv, Put, Send, Ended;
    WhileHeld(s, id);
    var (t, h) := StartStep(s, s.holders[id], o, took, endpoint);
    Stays(s, t, id, h);
  }

  lemma OffStepKeepsInv(s: Driver, id: nat, o: Outcome, took: bool)
    requires Inv(s) && id in s.holders
    ensures Inv(Settle(OffStep(s, s.holders[id], o, took), id))
  {
    hide Inv, Put, Send, Ended;
    WhileHeld(s, id);
    var (t, h) := OffStep(s, s.holders[id], o, took);
    if h.Some? {
      Stays(s, t, id, h.value);
    } else {
      Leaves(s, t, id);
    }
  }

  lemma FirstPollKeepsInv(s: Driver, id: nat)
    requires Inv(s) && id in s.holders
    ensures Inv(Settle(FirstPoll(s, s.holders[id]), id))
  {
    hide Inv, Put, Send, Ended;
    WhileHeld(s, id);
    var (t, h) := FirstPoll(s, s.holders[id]);
    if h.Some? {
      Stays(s, t, id, h.value);
    } else {
      Leaves(s, t, id);
    }
  }

  /** A step that leaves the claim's owner alone. */
  lemma DeviceSide(s: Driver, t: Driver)
    requires Exclusive(s) && Remembered(s) && t.holders == s.holders && t.shared.claim == s.shared.claim
    requires s.shared.claim == Held ==> t.shared.device == Open
    requires (t.on ==> t.mayOn) && (t.bias ==> t.mayBias) && (t.mayOn ==> s.mayOn)
    requires s.shared.claim == Held ==> t.mayOn == s.mayOn
    ensures Exclusive(t) && Remembered(t)
  {
  }

  lemma Tracked(s: Driver)
    requires Exclusive(s) && Remembered(s)
    ensures (s.on ==> s.mayOn) && (s.bias ==> s.mayBias) && (s.shared.claim == Held ==> s.shared.device == Open)
  {
  }

  lemma ShutdownStartKeepsInv(s: Driver)
    requires Inv(s) && ((s.handle && s.task == NoTask) || s.task == Opening)
    ensures Inv(ShutdownStart(s))
  {
    hide Exclusive, Remembered;
    Tracked(s);
    DeviceSide(s, ShutdownStart(s));
  }

  lemma ShutdownStepKeepsInv(s: Driver, o: Outcome, took: bool)
    requires Inv(s)
    ensures Inv(ShutdownStep(s, o, took))
  {
    hide Exclusive, Remembered, Send, Ended;
    Tracked(s);
    var t := ShutdownStep(s, o, took);
    if t.shared.claim == s.shared.claim {
      DeviceSide(s, t);
    } else {
      Shut(s, t);
    }
  }

  /** A completed shutdown takes the claim from nobody. */
  lemma Shut(s: Driver, t: Driver)
    requires Inv(s) && s.shared.device == Closing && t.holders == s.holders
      && t.shared == SharedDeviceState(Closed, Available)
    requires !t.mayOn && !t.on && (t.bias ==> t.mayBias)
    ensures s.holders == map[] && Exclusive(t) && Remembered(t)
  {
  }

  lemma ConfigStepKeepsInv(s: Driver, c: Command, o: Outcome, took: bool)
    requires Inv(s) && (s.task == Configuring || s.task == Opening) && c.request != ReceiverMode
    ensures Inv(ConfigStep(s, c, o, took))
  {
    hide Exclusive, Remembered, ShutdownStart;
    Tracked(s);
    var t := Ended(Send(s, c), c, o, took);
    DeviceSide(s, t);
    if o == FailedTransfer && s.task == Opening {
      ShutdownStartKeepsInv(t);
    } else {
      DeviceSide(s, t.(task := NoTask));
    }
  }

  lemma AcquireKeepsInv(s: Driver, id: nat)
    requires Inv(s) && s.handle && id !in s.holders && Acquire(s.shared).1.Ok?
    ensures Inv(Put(s.(shared := Acquire(s.shared).0), id, Holder(Stopped, Idle)))
  {
    assert s.holders == map[];
  }

  /** Whatever the owner does, somebody stays bound to turn the receiver off. */
  lemma OwnerKeepsInv(s: Driver, e: Event)
    requires Inv(s) && OwnerEvent(e) && e.id in s.holders
    ensures Inv(Settle(OwnerStep(s, s.holders[e.id], e), e.id))
  {
    hide Inv, Put, Send, StartStep, OffStep, FirstPoll;
    var h := s.holders[e.id];
    if e.TransferEnd? {
      TransferEndKeepsInv(s, e);
    } else if e.Poll? {
      FirstPollKeepsInv(s, e.id);
    } else {
      WhileHeld(s, e.id);
      var (t, h') := OwnerStep(s, h, e);
      Stays(s, t, e.id, h'.value);
    }
  }

  lemma TransferEndKeepsInv(s: Driver, e: Event)
    requires Inv(s) && e.TransferEnd? && e.id in s.holders
    ensures Inv(Settle(OwnerStep(s, s.holders[e.id], e), e.id))
  {
    hide Inv, Put, StartStep, OffStep;
    if Starting(s.holders[e.id].phase) {
      StartStepKeepsInv(s, e.id, e.o, e.took, e.endpoint);
    } else {
      OffStepKeepsInv(s, e.id, e.o, e.took);
    }
  }

  lemma HandleKeepsInv(s: Driver, e: Event)
    requires Inv(s)
    ensures Inv(HandleStep(s, e))
  {
    hide Exclusive, Remembered, ShutdownStep, ShutdownStart, ConfigStep, Send, Ended;
    if e.ConfigTransfer? {
      if (s.task == Configuring || s.task == Opening) && e.c.request != ReceiverMode {
        ConfigStepKeepsInv(s, e.c, e.o, e.took);
      }
    } else if e.Shutdown? {
      if s.handle && s.task == NoTask { ShutdownStartKeepsInv(s); }
    } else if e.ShutdownEnd? {
      ShutdownStepKeepsInv(s, e.o, e.took);
    } else {
      Tracked(s);
      DeviceSide(s, HandleStep(s, e));
    }
  }

  lemma DropKeepsInv(s: Driver, e: Event)
    requires Inv(s)
    ensures Inv(DropStep(s, e))
  {
    hide Exclusive, Remembered, Send, Ended;
    Tracked(s);
    Free(s);
    DeviceSide(s, DropStep(s, e));
  }

  lemma Free(s: Driver)
    requires Exclusive(s)
    ensures s.holders == map[] <==> s.shared.claim != Held
  {
  }

  lemma NextKeepsInv(s: Driver, e: Event)
    requires Inv(s)
    ensures Inv(Next(s, e))
  {
    hide Inv, OwnerStep, HandleStep, DropStep, Put, Settle;
    if OwnerEvent(e) {
      if e.id in s.holders { OwnerKeepsInv(s, e); }
    } else if e.AcquireClaim? {
      if s.handle && e.id !in s.holders && Acquire(s.shared).1.Ok? { AcquireKeepsInv(s, e.id); }
    } else if DropEvent(e) {
      DropKeepsInv(s, e);
    } else {
      HandleKeepsInv(s, e);
    }
  }

  lemma {:induction false} RunKeepsInv(s: Driver, events: seq<Event>)
    requires Inv(s)
    ensures Inv(Run(s, events))
    decreases |events|
  {
    hide Inv, Next;
    if |events| > 0 {
      NextKeepsInv(s, events[0]);
      RunKeepsInv(Next(s, events[0]), events[1..]);
    }
  }

  // ---- What holds in every run ----

  lemma Opened()
    ensures Inv(OPENED)
  {
  }

  /** The receiver is never forgotten: whatever has failed or been cancelled, if receiver-on has been
      sent since the last receiver-off that completed, and so whenever the receiver is on, then the
      claim demands a clean-up, or its owner is running, requires clean-up, or is a clean-up. An
      available claim, and a stopped stream, mean that the receiver is off. */
  lemma ReceiverNeverForgotten(events: seq<Event>)
    ensures var s := Run(OPENED, events);
      && (s.on ==> s.mayOn)
      && (s.mayOn ==>
            s.shared.claim == ClaimCleanupRequired || exists id :: id in s.holders && s.holders[id].receiver != Stopped)
      && (s.shared.claim == Available ==> !s.mayOn)
      && (forall id :: id in s.holders && s.holders[id].receiver == Stopped ==> !s.mayOn)
  {
    hide Run;
    Opened();
    RunKeepsInv(OPENED, events);
  }

  /** Claim exclusivity. */
  lemma OneClaimant(events: seq<Event>)
    ensures var s := Run(OPENED, events);
      && (forall a, b :: a in s.holders && b in s.holders ==> a == b)
      && (s.shared.claim == Held <==> s.holders != map[])
      && (s.holders != map[] ==> s.shared.device == Open)
  {
    hide Run, Remembered, Orderly;
    Opened();
    RunKeepsInv(OPENED, events);
    Free(Run(OPENED, events));
  }

  /** Shutdown is complete: the step that closes the device is the completion of bias-off, after a
      receiver-off that completed too, and both supplies are off from then on. */
  lemma ClosedMeansOff(s: Driver, e: Event)
    requires Inv(s) && s.shared.device != Closed && Next(s, e).shared.device == Closed
    ensures s.task == ShutBias(true) && e.ShutdownEnd? && e.o == Completed
    ensures !Next(s, e).on && !Next(s, e).bias && Next(s, e).holders == s.holders == map[]
  {
    hide Next, Inv, Exclusive, Remembered;
    Closes(s, e);
    NextKeepsInv(s, e);
    assert Inv(Next(s, e)) && Inv(s);
    Dark(Next(s, e));
    Unheld(s);
  }

  lemma Closes(s: Driver, e: Event)
    requires s.shared.device != Closed && Next(s, e).shared.device == Closed
    ensures s.task == ShutBias(true) && e.ShutdownEnd? && e.o == Completed
  {
    hide Put, Settle, Send, Ended, OwnerStep, DropStep;
  }

  lemma Dark(s: Driver)
    requires Inv(s) && s.shared.device == Closed
    ensures !s.on && !s.bias && s.holders == map[]
  {
    Tracked(s);
    Free(s);
  }

  lemma Unheld(s: Driver)
    requires Inv(s) && s.task.ShutBias?
    ensures s.holders == map[]
  {
    Free(s);
  }

  /** Bias-off is sent whether or not receiver-off has failed; and unless both complete, the
      device stays closing. */
  lemma BothAttempted(s: Driver, o: Outcome, took: bool)
    requires Inv(s) && s.task == ShutOff && o != Cancelled
    ensures var t := Next(s, ShutdownEnd(o, took));
      && t.task == ShutBias(o == Completed) && t.log == s.log + [BIAS_OFF] && t.shared == s.shared
      && forall o', took' :: Next(t, ShutdownEnd(o', took')).shared.device ==
           if o == Completed && o' == Completed then Closed else Closing
  {
  }

  /** Shutdown is terminal: once closed, nothing is ever sent again and nothing is turned on. */
  lemma {:induction false} ShutdownIsTerminal(s: Driver, events: seq<Event>)
    requires Inv(s) && s.shared.device == Closed
    ensures var t := Run(s, events); t.shared == s.shared && t.log == s.log && !t.on && !t.bias
    decreases |events|
  {
    hide Inv, Next;
    if |events| == 0 {
      Quiet(s, DropHandle);
    } else {
      Quiet(s, events[0]);
      NextKeepsInv(s, events[0]);
      ShutdownIsTerminal(Next(s, events[0]), events[1..]);
    }
  }

  lemma Quiet(s: Driver, e: Event)
    requires Inv(s) && s.shared.device == Closed
    ensures Next(s, e).shared == s.shared && Next(s, e).log == s.log && !s.on && !s.bias
  {
    hide Exclusive, Remembered, Put, Settle, Send, Ended, OwnerStep;
    Tracked(s);
    Free(s);
  }

  /** A shutdown can be retried after any failure or cancellation, and one that meets no failure
      closes the device. */
  lemma ShutdownSucceeds(s: Driver)
    requires Inv(s) && s.handle && s.task == NoTask && s.shared.claim != Held && s.shared.device != Closed
    ensures var t := Next(Next(Next(s, Shutdown), ShutdownEnd(Completed, true)), ShutdownEnd(Completed, true));
      t.shared == SharedDeviceState(Closed, Available) && !t.on && !t.bias
  {
    hide Inv, Next;
    ShutdownAgrees(s, Completed, Completed, true, true);
    var t1 := Next(s, Shutdown);
    var t2 := Next(t1, ShutdownEnd(Completed, true));
    NextKeepsInv(s, Shutdown);
    NextKeepsInv(t1, ShutdownEnd(Completed, true));
    NextKeepsInv(t2, ShutdownEnd(Completed, true));
    Dark(Next(t2, ShutdownEnd(Completed, true)));
  }

  /** While the claim is held, shutdown is refused and nothing happens. */
  lemma ShutdownRefused(s: Driver, id: nat)
    requires Inv(s) && s.task == NoTask && id in s.holders
    ensures Next(s, Shutdown) == s
  {
    WhileHeld(s, id);
  }

  /** The last owner's drop attempts both commands, unless the device is closed. */
  lemma FinalDrop(events: seq<Event>)
    ensures var s := Run(OPENED, events);
      s.drop == Gone && s.shared.device != Closed ==> |s.log| >= 2 && s.log[|s.log| - 2..] == [RECEIVER_OFF, BIAS_OFF]
  {
    hide Run, Exclusive, Remembered;
    Opened();
    RunKeepsInv(OPENED, events);
  }

  /** Dropping a stream at any moment, once its clean-up has run and completed, leaves the claim
      available and the receiver off. */
  lemma DropReleases(s: Driver, id: nat, took: bool)
    requires Inv(s) && id in s.holders && (s.holders[id].phase == Idle || s.holders[id].phase == CloseUnpolled)
    ensures var t := Next(Next(Next(s, DropHolder(id)), Poll(id)), TransferEnd(id, Completed, took, true));
      t.holders == map[] && t.shared == SharedDeviceState(Open, Available) && !t.on
  {
    hide Inv, Next;
    WhileHeld(s, id);
    DropAgrees(s, id, Completed, took, true);
    var dropped := Next(s, DropHolder(id));
    var polled := Next(dropped, Poll(id));
    NextKeepsInv(s, DropHolder(id));
    NextKeepsInv(dropped, Poll(id));
    NextKeepsInv(polled, TransferEnd(id, Completed, took, true));
    Unclaimed(Next(polled, TransferEnd(id, Completed, took, true)));
  }

  lemma Unclaimed(s: Driver)
    requires Inv(s) && s.shared.claim == Available
    ensures s.holders == map[] && !s.on
  {
    Tracked(s);
    Free(s);
  }

  /** Only a stop that completes makes a start possible again; and the receiver state reads as
      running only once the last step of a start has completed. */
  lemma OnlyStopReopens(s: Driver, id: nat, e: Event)
    requires Inv(s) && id in s.holders && id in Next(s, e).holders && s.holders[id].receiver == CleanupRequired
    ensures Next(s, e).holders[id].receiver == Stopped ==>
      s.holders[id].phase == StopOff && e.TransferEnd? && e.id == id && e.o == Completed
    ensures Next(s, e).holders[id].receiver == Running ==>
      (s.holders[id].phase == StartClear || s.holders[id].phase == StartRx(false)) && e.TransferEnd? && e.id == id
          && e.o == Completed
  {
    hide Inv, HandleStep, DropStep, OwnerStep;
    WhileHeld(s, id);
    if OwnerEvent(e) { OwnerReopens(s, s.holders[id], e); }
  }

  lemma OwnerReopens(s: Driver, h: Holder, e: Event)
    requires h.receiver == CleanupRequired && Coherent(h) && OwnerEvent(e)
    ensures var h' := OwnerStep(s, h, e).1;
      h'.Some? ==>
        && (h'.value.receiver == Stopped ==> h.phase == StopOff && e.TransferEnd? && e.o == Completed)
        && (h'.value.receiver == Running ==>
              (h.phase == StartClear || h.phase == StartRx(false)) && e.TransferEnd? && e.o == Completed)
  {
    hide StartStep, OffStep, FirstPoll;
    StepReopens(s, h, e);
  }

  lemma StepReopens(s: Driver, h: Holder, e: Event)
    requires h.receiver == CleanupRequired && Coherent(h)
    ensures FirstPoll(s, h).1.Some? ==> FirstPoll(s, h).1.value.receiver == CleanupRequired
    ensures e.TransferEnd? && Starting(h.phase) ==>
      var h' := StartStep(s, h, e.o, e.took, e.endpoint).1;
      && h'.receiver != Stopped
      && (h'.receiver == Running ==> (h.phase == StartClear || h.phase == StartRx(false)) && e.o == Completed)
    ensures e.TransferEnd? && !Starting(h.phase) ==>
      var h' := OffStep(s, h, e.o, e.took).1;
      h'.Some? ==>
        h'.value.receiver != Running && (h'.value.receiver == Stopped ==> h.phase == StopOff && e.o == Completed)
  {
    hide Send, Ended;
  }

  // ---- The protocol and the receiver object agree ----

  function Answer(phase: Phase, env: Receiving.StartEnv): Outcome {
    match phase
    case StartOff => env.off
    case StartRx(_) => env.rx
    case StartClear => env.clear
    case _ => env.fallback
  }

  /** The transfers of a start attempt end as `env` says, one after another. */
  function Answered(r: (Driver, Holder), env: Receiving.StartEnv, took: bool, n: nat): (Driver, Holder)
    decreases n
  {
    if n == 0 || !Starting(r.1.phase) then r
    else Answered(StartStep(r.0, r.1, Answer(r.1.phase, env), took, env.endpoint.Some?), env, took, n - 1)
  }

  predicate LeftAt(r: (Driver, Holder), log: seq<Command>, receiver: ReceiverState) {
    r.1 == Holder(receiver, Idle) && r.0.log == log
  }

  /** What a step of the attempt that ends with `o` leads to, `next` being what completion does. */
  predicate Onward(r: (Driver, Holder), o: Outcome, log: seq<Command>, next: bool) {
    match o
    case Completed => next
    case FailedTransfer => LeftAt(r, log + [RECEIVER_OFF], CleanupRequired)
    case Cancelled => LeftAt(r, log, CleanupRequired)
  }

  lemma FromFallback(r: (Driver, Holder), env: Receiving.StartEnv, took: bool, n: nat)
    requires r.1.phase.StartFallback? && n >= 1
    ensures LeftAt(Answered(r, env, took, n), r.0.log, CleanupRequired)
  {
    hide Send, Ended;
  }

  lemma FromClear(r: (Driver, Holder), env: Receiving.StartEnv, took: bool, n: nat)
    requires r.1.phase.StartClear? && n >= 2
    ensures var t := Answered(r, env, took, n); Onward(t, env.clear, r.0.log, LeftAt(t, r.0.log, Running))
  {
    hide Send, Ended;
    var next := StartStep(r.0, r.1, env.clear, took, env.endpoint.Some?);
    if env.clear == FailedTransfer {
      FromFallback(next, env, took, n - 1);
    }
  }

  lemma FromRx(r: (Driver, Holder), env: Receiving.StartEnv, took: bool, n: nat)
    requires r.1.phase.StartRx? && n >= 3
    ensures var t := Answered(r, env, took, n);
      Onward(t, env.rx, r.0.log,
             if r.1.phase.fresh' then Onward(t, env.clear, r.0.log, LeftAt(t, r.0.log, Running))
             else LeftAt(t, r.0.log, Running))
  {
    hide Send, Ended;
    var next := StartStep(r.0, r.1, env.rx, took, env.endpoint.Some?);
    if env.rx == FailedTransfer {
      FromFallback(next, env, took, n - 1);
    } else if env.rx == Completed && r.1.phase.fresh' {
      FromClear(next, env, took, n - 1);
    }
  }

  /** Run to its end, the protocol's start attempt sends the commands, and leaves the receiver
      state, of the receiver object's `start_pipeline` under the same outcomes. */
  lemma StartAgrees(s: Driver, fresh': bool, env: Receiving.StartEnv, took: bool)
    ensures LeftAt(Answered(StartPipeline(s, fresh'), env, took, 4),
                   s.log + Receiving.PipelineLog(fresh', env),
                   if Receiving.PipelineResult(fresh', env) == Finished(Ok(())) then Running else CleanupRequired)
  {
    hide Send, Ended, Answered;
    var r := StartPipeline(s, fresh');
    if !fresh' {
      FromRx(r, env, took, 4);
    } else {
      Unroll(r, env, took);
      var next := StartStep(r.0, r.1, env.off, took, env.endpoint.Some?);
      if env.off == Completed && env.endpoint.Some? {
        FromRx(next, env, took, 3);
      } else if env.off != Cancelled {
        FromFallback(next, env, took, 3);
      }
    }
  }

  lemma Unroll(r: (Driver, Holder), env: Receiving.StartEnv, took: bool)
    requires r.1.phase.StartOff?
    ensures var next := StartStep(r.0, r.1, env.off, took, env.endpoint.Some?);
      && Answered(r, env, took, 4) == Answered(next, env, took, 3)
      && (!Starting(next.1.phase) ==> Answered(next, env, took, 3) == next)
  {
    hide StartStep;
  }

  /** The transfers of the present start attempt of `id` end, one event after another. */
  function AnsweredRun(s: Driver, id: nat, env: Receiving.StartEnv, took: bool, n: nat): Driver
    decreases n
  {
    if n == 0 || id !in s.holders || !Starting(s.holders[id].phase) then s
    else
      var e := TransferEnd(id, Answer(s.holders[id].phase, env), took, env.endpoint.Some?);
      AnsweredRun(Next(s, e), id, env, took, n - 1)
  }

  lemma {:induction false} RunsAnswered(
    s: Driver, r: (Driver, Holder), id: nat, env: Receiving.StartEnv, took: bool, n: nat)
    requires r.0.holders == s.holders
    ensures AnsweredRun(Put(r.0, id, r.1), id, env, took, n) ==
      var (t, h) := Answered(r, env, took, n); Put(t, id, h)
    decreases n
  {
    hide StartStep, OffStep, FirstPoll, HandleStep, DropStep;
    if n > 0 && Starting(r.1.phase) {
      var next := StartStep(r.0, r.1, Answer(r.1.phase, env), took, env.endpoint.Some?);
      StartStepElsewhere(r.0, r.1, Answer(r.1.phase, env), took, env.endpoint.Some?);
      OneAnswer(r, next, id, env, took);
      RunsAnswered(s, next, id, env, took, n - 1);
    }
  }

  lemma StartStepElsewhere(s: Driver, h: Holder, o: Outcome, took: bool, endpoint: bool)
    ensures StartStep(s, h, o, took, endpoint).0.holders == s.holders
  {
    hide Send, Ended;
  }

  lemma OneAnswer(r: (Driver, Holder), next: (Driver, Holder), id: nat, env: Receiving.StartEnv, took: bool)
    requires Starting(r.1.phase) && next == StartStep(r.0, r.1, Answer(r.1.phase, env), took, env.endpoint.Some?)
    ensures Next(Put(r.0, id, r.1), TransferEnd(id, Answer(r.1.phase, env), took, env.endpoint.Some?))
      == Put(next.0, id, next.1)
  {
    hide HandleStep, DropStep, OffStep, FirstPoll, StartStep, StartPipeline;
    var m := r.0.holders[id := r.1];
    StepIgnoresHolders(r.0, r.1, Answer(r.1.phase, env), took, env.endpoint.Some?, m);
    StartStepElsewhere(r.0, r.1, Answer(r.1.phase, env), took, env.endpoint.Some?);
    assert m[id := next.1] == r.0.holders[id := next.1];
  }

  function Holding(s: Driver, m: map<nat, Holder>): Driver { s.(holders := m) }

  lemma SendIgnoresHolders(s: Driver, c: Command, m: map<nat, Holder>)
    ensures Send(Holding(s, m), c) == Holding(Send(s, c), m)
  {
  }

  lemma EndedIgnoresHolders(s: Driver, c: Command, o: Outcome, took: bool, m: map<nat, Holder>)
    ensures Ended(Holding(s, m), c, o, took) == Holding(Ended(s, c, o, took), m)
  {
  }

  lemma StepIgnoresHolders(s: Driver, h: Holder, o: Outcome, took: bool, endpoint: bool, m: map<nat, Holder>)
    ensures var r := StartStep(s, h, o, took, endpoint);
      StartStep(Holding(s, m), h, o, took, endpoint) == (Holding(r.0, m), r.1)
  {
    hide Send, Ended, Holding;
    match h.phase
    case StartOff =>
      var off := Ended(s, RECEIVER_OFF, o, took);
      EndedIgnoresHolders(s, RECEIVER_OFF, o, took, m);
      SendIgnoresHolders(off, RECEIVER_RX, m);
      SendIgnoresHolders(off, RECEIVER_OFF, m);
    case StartRx(_) =>
      EndedIgnoresHolders(s, RECEIVER_RX, o, took, m);
      SendIgnoresHolders(Ended(s, RECEIVER_RX, o, took), RECEIVER_OFF, m);
    case StartClear => SendIgnoresHolders(s, RECEIVER_OFF, m);
    case StartFallback => EndedIgnoresHolders(s, RECEIVER_OFF, o, took, m);
    case _ =>
  }

  /** A start, and a restart for a new packing, end as the receiver object says, in the receiver
      state and the commands it says, for every way their awaits can end. */
  lemma StartRunAgrees(s: Driver, id: nat, fresh': bool, env: Receiving.StartEnv, took: bool)
    requires id in s.holders
    ensures s.holders[id] == Holder(Stopped, Idle) ==>
      EndsAt(AnsweredRun(Next(s, Start(id, fresh')), id, env, took, 4), s, id, fresh', env)
    ensures s.holders[id] == Holder(Running, Idle) ==>
      EndsAt(AnsweredRun(Next(s, RestartPacking(id)), id, env, took, 4), s, id, true, env)
  {
    hide StartStep, OffStep, FirstPoll, HandleStep, DropStep, Answered, AnsweredRun;
    var f := if s.holders[id].receiver == Stopped then fresh' else true;
    StartAgrees(s, f, env, took);
    RunsAnswered(s, StartPipeline(s, f), id, env, took, 4);
  }

  predicate EndsAt(t: Driver, s: Driver, id: nat, fresh': bool, env: Receiving.StartEnv) {
    && id in t.holders
    && t.holders[id].phase == Idle
    && t.holders[id].receiver ==
         (if Receiving.PipelineResult(fresh', env) == Finished(Ok(())) then Running else CleanupRequired)
    && t.log == s.log + Receiving.PipelineLog(fresh', env)
  }

  /** A stop ends as in the receiver object. */
  lemma StopAgrees(s: Driver, id: nat, off: Outcome, took: bool, endpoint: bool)
    requires id in s.holders && s.holders[id].phase == Idle
    ensures var t := Next(Next(s, Stop(id)), TransferEnd(id, off, took, endpoint));
      && id in t.holders && t.holders[id] == Holder(TurnOff(s.holders[id].receiver, off).0, Idle)
      && t.log == s.log + TurnOff(s.holders[id].receiver, off).1 && t.shared == s.shared
  {
    hide Next, Put;
    StopBegins(s, id);
    StopEnds(Next(s, Stop(id)), id, off, took, endpoint);
  }

  lemma StopBegins(s: Driver, id: nat)
    requires id in s.holders && s.holders[id].phase == Idle
    ensures var t := Next(s, Stop(id));
      && id in t.holders && t.shared == s.shared
      && (s.holders[id].receiver == Stopped ==> t.holders[id] == s.holders[id] && t.log == s.log)
      && (s.holders[id].receiver != Stopped ==>
            t.holders[id] == Holder(CleanupRequired, StopOff) && t.log == s.log + [RECEIVER_OFF])
  {
    hide StartStep, OffStep, StartPipeline, FirstPoll, HandleStep, DropStep, Send;
  }

  lemma StopEnds(s: Driver, id: nat, off: Outcome, took: bool, endpoint: bool)
    requires id in s.holders && (s.holders[id].phase == Idle || s.holders[id].phase == StopOff)
    ensures var t := Next(s, TransferEnd(id, off, took, endpoint));
      && id in t.holders && t.log == s.log && t.shared == s.shared
      && t.holders[id] == if s.holders[id].phase == Idle then s.holders[id]
                          else Holder(if off == Completed then Stopped else CleanupRequired, Idle)
  {
    hide StartStep, StartPipeline, FirstPoll, HandleStep, DropStep, Send, Ended;
  }

  /** A close ends as in the claim object: released, or left to the clean-up that its drop begins. */
  lemma CloseAgrees(s: Driver, id: nat, off: Outcome, took: bool, endpoint: bool)
    requires id in s.holders && s.holders[id].phase == Idle
    ensures var t := Next(Next(Next(s, Close(id)), Poll(id)), TransferEnd(id, off, took, endpoint));
      var (r, sent, a) := TurnOff(s.holders[id].receiver, off);
      && t.log == s.log + sent
      && (a == Finished(Ok(())) ==> id !in t.holders && t.shared == s.shared.(claim := Available))
      && (a != Finished(Ok(())) ==> t.shared == s.shared && id in t.holders && t.holders[id] == BeginCleanup(r))
  {
    hide StartStep, HandleStep, DropStep, Send, Ended;
    var polled := Next(Next(s, Close(id)), Poll(id));
    assert s.holders[id].receiver == Stopped ==> id !in polled.holders && polled.log == s.log;
    assert s.holders[id].receiver != Stopped ==>
        id in polled.holders && polled.holders[id] == Holder(CleanupRequired, CloseOff);
  }

  /** Dropping a stream, and the clean-up this begins, ends as in the claim object. */
  lemma DropAgrees(s: Driver, id: nat, off: Outcome, took: bool, endpoint: bool)
    requires id in s.holders && (s.holders[id].phase == Idle || s.holders[id].phase == CloseUnpolled)
      && off != Cancelled
    ensures var t := Next(Next(Next(s, DropHolder(id)), Poll(id)), TransferEnd(id, off, took, endpoint));
      var (r, sent, a) := TurnOff(s.holders[id].receiver, off);
      && t.log == s.log + sent && id !in t.holders
      && t.shared == EndCleanup(s.shared, a == Finished(Ok(())))
  {
    hide Next;
    DropBegins(s, id);
    var polled := Next(Next(s, DropHolder(id)), Poll(id));
    if s.holders[id].receiver == Stopped {
      NobodyWaits(polled, id, off, took, endpoint);
    } else {
      CleanupEnds(polled, id, off, took, endpoint);
    }
  }

  lemma DropBegins(s: Driver, id: nat)
    requires id in s.holders && (s.holders[id].phase == Idle || s.holders[id].phase == CloseUnpolled)
    ensures var t := Next(s, DropHolder(id));
      t.holders == s.holders[id := BeginCleanup(s.holders[id].receiver)] && t.log == s.log && t.shared == s.shared
    ensures var t := Next(Next(s, DropHolder(id)), Poll(id));
      && (s.holders[id].receiver == Stopped ==>
          id !in t.holders && t.log == s.log && t.shared == EndCleanup(s.shared, true))
      && (s.holders[id].receiver != Stopped ==>
            && id in t.holders && t.holders[id] == Holder(CleanupRequired, CleanupOff)
            && t.log == s.log + [RECEIVER_OFF] && t.shared == s.shared)
  {
    hide StartStep, OffStep, StartPipeline, HandleStep, DropStep, Send, Ended;
  }

  lemma CleanupEnds(s: Driver, id: nat, off: Outcome, took: bool, endpoint: bool)
    requires id in s.holders && s.holders[id].phase == CleanupOff && off != Cancelled
    ensures var t := Next(s, TransferEnd(id, off, took, endpoint));
      id !in t.holders && t.log == s.log && t.shared == EndCleanup(s.shared, off == Completed)
  {
    hide StartStep, StartPipeline, FirstPoll, HandleStep, DropStep, Send, Ended;
  }

  lemma NobodyWaits(s: Driver, id: nat, off: Outcome, took: bool, endpoint: bool)
    requires id !in s.holders
    ensures Next(s, TransferEnd(id, off, took, endpoint)) == s
  {
    hide OwnerStep, HandleStep, DropStep;
  }

  /** A shutdown ends as in the session object. */
  lemma ShutdownAgrees(s: Driver, off: Outcome, bias: Outcome, took: bool, took': bool)
    requires s.handle && s.task == NoTask
    ensures var t := Next(Next(Next(s, Shutdown), ShutdownEnd(off, took)), ShutdownEnd(bias, took'));
      t.shared == ShutdownRun(s.shared, off, bias).0 && t.log == s.log + ShutdownRun(s.shared, off, bias).1
          && t.task == NoTask
  {
    hide OwnerStep, DropStep, ConfigStep, ShutdownStart, ShutdownStep;
    ShutdownSteps(s, off, bias, took, took');
  }

  lemma ShutdownSteps(s: Driver, off: Outcome, bias: Outcome, took: bool, took': bool)
    requires s.task == NoTask
    ensures var t := ShutdownStep(ShutdownStep(ShutdownStart(s), off, took), bias, took');
      t.shared == ShutdownRun(s.shared, off, bias).0 && t.log == s.log + ShutdownRun(s.shared, off, bias).1
          && t.task == NoTask
  {
    hide Send, Ended, ShutdownStep;
    var begun := ShutdownStart(s);
    if begun.task == NoTask {
      NothingToEnd(begun, off, took);
      NothingToEnd(begun, bias, took');
      assert begun.log == s.log + [];
    } else {
      ShutdownEnds(begun, off, bias, took, took');
      assert begun.log == s.log + [RECEIVER_OFF];
    }
  }

  lemma NothingToEnd(s: Driver, o: Outcome, took: bool)
    requires s.task == NoTask
    ensures ShutdownStep(s, o, took) == s
  {
  }

  lemma ShutdownEnds(s: Driver, off: Outcome, bias: Outcome, took: bool, took': bool)
    requires s.task == ShutOff
    ensures var t := ShutdownStep(ShutdownStep(s, off, took), bias, took');
      && t.task == NoTask && t.shared == EndShutdown(s.shared, off == Completed && bias == Completed)
      && t.log == if off == Cancelled then s.log else s.log + [BIAS_OFF]
  {
    hide Send, Ended;
    var next := ShutdownStep(s, off, took);
    if off == Cancelled {
      NothingToEnd(next, bias, took');
    }
  }

  // ---- Configurations, and the opening of a device ----

  /** The transfers of a command list end, from the i-th on. Those after the first that does not
      complete are never sent, and their ends are events that cannot occur. */
  function Transfers(commands: seq<Command>, ends: nat -> Outcome, took: nat -> bool, i: nat): seq<Event>
    requires i <= |commands|
    decreases |commands| - i
  {
    if i == |commands| then []
    else [ConfigTransfer(commands[i], ends(i), took(i))] + Transfers(commands, ends, took, i + 1)
  }

  /** No command of a configuration, and no metadata query, concerns the receiver. */
  predicate ReceiverUntouched(commands: seq<Command>) {
    forall i :: 0 <= i < |commands| ==> commands[i].request != ReceiverMode
  }

  lemma {:induction false} RunsTransfers(
    s: Driver, commands: seq<Command>, ends: nat -> Outcome, took: nat -> bool, i: nat)
    requires (s.task == Opening || s.task == Configuring) && s.shared.device == Open && i <= |commands|
    requires (s.task == Opening ==> s.shared.claim == Available) && ReceiverUntouched(commands)
    ensures var t := Run(s, Transfers(commands, ends, took, i)); var (n, a) := SequenceEnd(commands, ends, i);
      && t.handle == s.handle
      && t.shared == (if a == Finished(Err(Transfer)) && s.task == Opening then SharedDeviceState(Closing, Available)
                      else s.shared)
      && t.task == (if a == Finished(Ok(())) then s.task
                    else if a.Finished? && s.task == Opening then ShutOff else NoTask)
      && t.log == s.log + commands[i..n] + if t.task == ShutOff then [RECEIVER_OFF] else []
    decreases |commands| - i
  {
    hide Next, Run, Transfers;
    UnrollTransfers(s, commands, ends, took, i);
    if i < |commands| {
      var next := Next(s, ConfigTransfer(commands[i], ends(i), took(i)));
      OneTransfer(s, commands[i], ends(i), took(i));
      var n := SequenceEnd(commands, ends, i).0;
      Longer(s.log, commands, i, n);
      if ends(i) == Completed {
        RunsTransfers(next, commands, ends, took, i + 1);
      } else {
        NothingSent(next, commands, ends, took, i + 1);
      }
    }
  }

  lemma UnrollTransfers(s: Driver, commands: seq<Command>, ends: nat -> Outcome, took: nat -> bool, i: nat)
    requires i <= |commands|
    ensures Run(s, Transfers(commands, ends, took, i)) ==
      if i == |commands| then s
      else Run(Next(s, ConfigTransfer(commands[i], ends(i), took(i))), Transfers(commands, ends, took, i + 1))
  {
    hide Next;
  }

  lemma Longer(log: seq<Command>, commands: seq<Command>, i: nat, n: nat)
    requires i < n <= |commands|
    ensures log + commands[i..n] == log + [commands[i]] + commands[i + 1..n]
    ensures commands[i + 1..i + 1] == []
  {
  }

  lemma OneTransfer(s: Driver, c: Command, o: Outcome, took: bool)
    requires (s.task == Opening || s.task == Configuring) && s.shared.device == Open && c.request != ReceiverMode
    requires s.task == Opening ==> s.shared.claim == Available
    ensures var t := Next(s, ConfigTransfer(c, o, took));
      var fails := o == FailedTransfer && s.task == Opening;
      && t.handle == s.handle
      && t.task == (if o == Completed then s.task else if fails then ShutOff else NoTask)
      && t.shared == (if fails then SharedDeviceState(Closing, Available) else s.shared)
      && t.log == s.log + [c] + if fails then [RECEIVER_OFF] else []
  {
    hide Send, Ended, OwnerStep, DropStep;
  }

  lemma {:induction false} NothingSent(
    s: Driver, commands: seq<Command>, ends: nat -> Outcome, took: nat -> bool, i: nat)
    requires s.task != Opening && s.task != Configuring && i <= |commands|
    ensures Run(s, Transfers(commands, ends, took, i)) == s
    decreases |commands| - i
  {
    hide OwnerStep, DropStep, ConfigStep;
    if i < |commands| {
      assert Next(s, ConfigTransfer(commands[i], ends(i), took(i))) == s;
      NothingSent(s, commands, ends, took, i + 1);
    }
  }

  /** The opening of a device ends as in the session object: with everything sent and the handle
      returned, or with the transfers up to the first that did not complete, followed by the shutdown
      commands exactly if that one failed. */
  lemma OpenAgrees(sent: seq<Command>, ends: nat -> Outcome, took: nat -> bool, off: Outcome, bias: Outcome,
                   offTook: bool, biasTook: bool)
    requires ReceiverUntouched(sent)
    ensures var t := Next(Next(Next(Run(OPENED, Transfers(sent, ends, took, 0)), ConfigDone),
                               ShutdownEnd(off, offTook)), ShutdownEnd(bias, biasTook));
      && t.task == NoTask
      && ((forall k :: 0 <= k < |sent| ==> ends(k) == Completed) ==>
            t.handle && t.log == sent && t.shared == SharedDeviceState(Open, Available))
      && (forall k: nat :: FirstToFail(sent, ends, k) ==>
            && !t.handle && k < |sent|
            && (ends(k) == Cancelled ==> t.log == sent[..k + 1] && t.shared == SharedDeviceState(Open, Available))
            && (ends(k) == FailedTransfer ==>
                  && t.log == sent[..k + 1] + [RECEIVER_OFF] + (if off == Cancelled then [] else [BIAS_OFF])
                  && t.shared ==
                       SharedDeviceState(if off == Completed == bias then Closed else Closing, Available)))
  {
    hide Run, Next, SequenceEnd, FirstToFail, SentInOrder;
    var s := Run(OPENED, Transfers(sent, ends, took, 0));
    RunsTransfers(OPENED, sent, ends, took, 0);
    var (n, a) := SequenceEnd(sent, ends, 0);
    SequenceIsOrdered(sent, ends);
    OrderedIs(sent, ends, sent[..n], a);
    assert [] + sent[0..n] == sent[..n];
    OpeningEnds(s, off, bias, offTook, biasTook);
  }

  /** What follows the transfers of the opening. */
  lemma OpeningEnds(s: Driver, off: Outcome, bias: Outcome, offTook: bool, biasTook: bool)
    requires s.task == Opening || s.task == NoTask || s.task == ShutOff
    ensures var t := Next(Next(Next(s, ConfigDone), ShutdownEnd(off, offTook)), ShutdownEnd(bias, biasTook));
      && t.task == NoTask && t.handle == (s.handle || s.task == Opening)
      && t.shared == (if s.task == ShutOff then EndShutdown(s.shared, off == Completed == bias) else s.shared)
      && t.log == s.log + if s.task == ShutOff && off != Cancelled then [BIAS_OFF] else []
  {
    hide OwnerStep, DropStep, ConfigStep, ShutdownStep;
    var done := Next(s, ConfigDone);
    if done.task == NoTask {
      NothingToEnd(done, off, offTook);
      NothingToEnd(done, bias, biasTook);
    } else {
      ShutdownEnds(done, off, bias, offTook, biasTook);
      ShutdownKeepsHandle(done, off, offTook);
      ShutdownKeepsHandle(ShutdownStep(done, off, offTook), bias, biasTook);
    }
  }

  lemma ShutdownKeepsHandle(s: Driver, o: Outcome, took: bool)
    ensures ShutdownStep(s, o, took).handle == s.handle
  {
    hide Send, Ended;
  }

  /** An update of the configuration sends what the session object sends, and leaves the rest alone. */
  lemma ConfigAgrees(s: Driver, commands: seq<Command>, ends: nat -> Outcome, took: nat -> bool)
    requires s.handle && s.task == NoTask && s.shared.device == Open && ReceiverUntouched(commands)
    ensures var t := Next(Run(Next(s, Configure), Transfers(commands, ends, took, 0)), ConfigDone);
      && t.task == NoTask && t.handle && t.shared == s.shared
      && t.log == Applied(s.shared, s.log, ReceiveSettings(false, 1), commands, None, ends).1
  {
    hide Run, OwnerStep, DropStep, ConfigStep, ShutdownStep, SequenceEnd;
    RunsTransfers(Next(s, Configure), commands, ends, took, 0);
    var (n, a) := SequenceEnd(commands, ends, 0);
    assert commands[0..n] == commands[..n];
  }

  /** The drop of the session's last owner does happen, and whatever becomes of its first command, the
      second is sent. */
  lemma DropHappens(s: Driver, took: bool, ok: bool, took': bool, ok': bool)
    requires Unowned(s) && s.drop == Alive
    ensures var t := Next(Next(Next(s, DropSession), DropEnd(took, ok)), DropEnd(took', ok'));
      && t.drop == Gone && t.shared == s.shared
      && t.log == s.log + if s.shared.device == Closed then [] else [RECEIVER_OFF, BIAS_OFF]
  {
    hide OwnerStep, HandleStep, Send, Ended;
    var begun := Next(s, DropSession);
    if s.shared.device != Closed {
      var off := Next(begun, DropEnd(took, ok));
      assert off.drop == DropBias && off.log == s.log + [RECEIVER_OFF, BIAS_OFF];
    }
  }

  /** A claim is had exactly from an open device on which there is none; its receiver is then off. */
  lemma ClaimIsHad(s: Driver, id: nat)
    requires s.handle && id !in s.holders
    ensures var t := Next(s, AcquireClaim(id));
      if s.shared == SharedDeviceState(Open, Available)
      then t == s.(shared := SharedDeviceState(Open, Held), holders := s.holders[id := Holder(Stopped, Idle)])
      else t == s
  {
    hide OwnerStep, HandleStep, DropStep;
  }

  /** After a failed read the stream cannot be started, and neither restarted nor read, until a stop
      has completed. */
  lemma ReadFailureNeedsStop(s: Driver, id: nat, fresh': bool, took: bool, endpoint: bool)
    requires id in s.holders && s.holders[id] == Holder(Running, Idle)
    ensures var t := Next(s, ReadFailed(id));
      && id in t.holders && t.holders[id] == Holder(CleanupRequired, Idle) && t.log == s.log
      && Next(t, Start(id, fresh')) == t && Next(t, RestartPacking(id)) == t
      && var stopped := Next(Next(t, Stop(id)), TransferEnd(id, Completed, took, endpoint));
         id in stopped.holders && stopped.holders[id] == Holder(Stopped, Idle)
  {
    hide StartStep, OffStep, StartPipeline, FirstPoll, HandleStep, DropStep, Send;
    var t := Next(s, ReadFailed(id));
    assert t.holders[id := Holder(CleanupRequired, Idle)] == t.holders;
    StopAgrees(t, id, Completed, took, endpoint);
  }
}
