/** The persistent USB receive queue of src/rx/queue.rs. A fixed pool of sixteen buffers moves
    between "not submitted", "pending in the endpoint" and "current".

    The endpoint is a first-in first-out list of submitted buffers; when a transfer completes, with
    what status, length and data, is up to the environment. Four fields are instrumentation that no
    code reads: `epoch` counts the pauses that have taken effect, a buffer's `stamp` is the epoch in
    which it was last submitted, `staleTaken` counts the completions of buffers whose stamp was out
    of date, and `liveDiscards` counts the usable buffers given up after they had been counted as
    processed. */
module RxQueue {
  import opened Errors
  import opened FirmwareProtocol
  import opened Numbers
  import opened Baseband

  const RFONE_TRANSFER_COUNT: nat := 16
  const DEFAULT_BUFFER_SIZE: nat := 262144
  const PACKED_BUFFER_SIZE: nat := 6144 * 24

  datatype StreamingStats = StreamingStats(received: nat, processed: nat, dropped: nat, discardedOnRestart: nat)
  {
    function Accumulate(other: StreamingStats): StreamingStats {
      StreamingStats(received + other.received, processed + other.processed,
                     dropped + other.dropped, discardedOnRestart + other.discardedOnRestart)
    }
    predicate AtMost(other: StreamingStats) {
      && received <= other.received && processed <= other.processed
      && dropped <= other.dropped && discardedOnRestart <= other.discardedOnRestart
    }
  }
  const NO_STATS := StreamingStats(0, 0, 0, 0)

  /** `capacity` is what was allocated; `bytes` is what the buffer shows, which a completed
      transfer replaces. */
  datatype Buffer = Buffer(capacity: nat, bytes: seq<Byte>, stamp: nat)

  datatype SampleBlock = SampleBlock(raw: seq<Byte>, sampleCount: nat, droppedSamples: nat)

  /** What the endpoint answers when asked for the next completion. */
  datatype Event = Silence | Done(ok: bool, actualLen: nat, bytes: seq<Byte>)

  datatype Fill = Waiting | Filled | Failed(error: Error)

  function ExpectedLen(packing: bool): nat {
    if packing then PACKED_BUFFER_SIZE else DEFAULT_BUFFER_SIZE
  }

  function Size<T>(x: Option<T>): nat { if x.Some? then 1 else 0 }

  /** A snapshot of the queue. `bulkIn` lists the pending buffers, oldest first. */
  datatype QueueState = QueueState(
    bulkIn: Option<seq<Buffer>>,
    buffers: seq<Buffer>,
    initialized: bool,
    current: Option<Buffer>,
    currentLen: nat,
    settings: ReceiveSettings,
    stats: StreamingStats,
    discardRemaining: nat,
    epoch: nat,
    liveDiscards: nat,
    staleTaken: nat)
  {
    predicate Open() { bulkIn.Some? }

    function Submit(buffer: Buffer): QueueState
      requires Open()
    {
      this.(bulkIn := Some(bulkIn.value + [buffer.(stamp := epoch)]))
    }

    function ReleaseCurrent(): QueueState {
      var q := if current.Some? && Open() then Submit(current.value) else this;
      q.(current := None, currentLen := 0)
    }

    function DiscardCurrent(): QueueState {
      var q := if current.Some?
               then this.(stats := stats.(dropped := stats.dropped + 1), liveDiscards := liveDiscards + 1)
               else this;
      q.ReleaseCurrent()
    }

    function Pause(): QueueState {
      var q := ReleaseCurrent();
      if Open() then q.(discardRemaining := |q.bulkIn.value|, epoch := epoch + 1) else q
    }

    function Close(): QueueState {
      this.(bulkIn := None, current := None, buffers := [], currentLen := 0)
    }

    /** The oldest pending buffer completes. */
    function Accept(c: Event): (r: (QueueState, Result<bool>))
      requires Open() && |bulkIn.value| > 0 && c.Done?
    {
      var buffer := bulkIn.value[0].(bytes := c.bytes);
      var q := this.(bulkIn := Some(bulkIn.value[1..]), stats := stats.(received := stats.received + 1),
                     staleTaken := staleTaken + if buffer.stamp < epoch then 1 else 0);
      if discardRemaining != 0 then
        var q' := q.(discardRemaining := discardRemaining - 1,
                     stats := q.stats.(dropped := stats.dropped + 1,
                         discardedOnRestart := stats.discardedOnRestart + 1));
        (q'.Submit(buffer), Ok(false))
      else if !c.ok || c.actualLen != ExpectedLen(settings.packing) || c.actualLen > |buffer.bytes| then
        (q.(stats := q.stats.(dropped := stats.dropped + 1)).Close(), Err(if !c.ok then Transfer else Protocol))
      else
        (q.(current := Some(buffer), currentLen := c.actualLen, stats := q.stats.(processed := stats.processed + 1)),
            Ok(true))
    }

    // ---- The invariant ----

    /** Restart epochs: the first `discardRemaining` pending buffers are exactly the ones
        submitted before the latest pause, and the current one never is. */
    ghost predicate Epochs() {
      && (Open() ==>
            && discardRemaining <= |bulkIn.value|
            && forall i {:trigger bulkIn.value[i]} :: 0 <= i < |bulkIn.value| ==>
                 bulkIn.value[i].stamp <= epoch && (bulkIn.value[i].stamp < epoch <==> i < discardRemaining))
      && (current.Some? ==> current.value.stamp == epoch)
    }

    /** Buffer conservation, and buffer sizes that match the transfer format. */
    ghost predicate Pool() {
      && (Open() ==>
            && |bulkIn.value| + |buffers| + Size(current) == RFONE_TRANSFER_COUNT
            && (initialized ==> buffers == [])
            && (!initialized ==> current == None)
            && (forall b :: b in bulkIn.value + buffers ==> b.capacity == ExpectedLen(settings.packing)))
      && (!Open() ==> current == None && buffers == [])
      && (current.Some? ==>
            && current.value.capacity == ExpectedLen(settings.packing)
            && currentLen == ExpectedLen(settings.packing) <= |current.value.bytes|)
      && (current.None? ==> currentLen == 0)
    }

    /** Statistics conservation. */
    ghost predicate Counts() {
      && stats.received + liveDiscards == stats.processed + stats.dropped
      && stats.discardedOnRestart == staleTaken <= stats.dropped
    }

    ghost predicate Inv() {
      Epochs() && Pool() && Counts()
    }

    /** `block`: the borrowed view of the current buffer. */
    function Block(): (r: Result<SampleBlock>)
      requires Inv()
      ensures r.Ok? <==> current.Some?
      ensures r.Err? ==> r.error == StreamClosed
      ensures r.Ok? ==>
        && r.value.raw == current.value.bytes[..currentLen] && |r.value.raw| == ExpectedLen(settings.packing)
        && r.value.sampleCount == (if settings.packing then 98304 else 131072)
        && r.value.droppedSamples == stats.dropped * r.value.sampleCount
    {
      if current.None? then Err(StreamClosed)
      else
        var count := if settings.packing then currentLen / 2 * 4 / 3 else currentLen / 2;
        Ok(SampleBlock(current.value.bytes[..currentLen], count, stats.dropped * count))
    }
  }

  /** `Queue::new` on an endpoint that may already have transfers pending. */
  function NewQueue(pending: seq<Buffer>, settings: ReceiveSettings): QueueState {
    var missing := if |pending| <= RFONE_TRANSFER_COUNT then RFONE_TRANSFER_COUNT - |pending| else 0;
    QueueState(Some(pending), seq(missing, _ => Buffer(ExpectedLen(settings.packing), [], 0)),
               false, None, 0, settings, NO_STATS, 0, 0, 0, 0)
  }

  /** The end of `initialize`, when clearing the endpoint has succeeded. */
  function Initialized(q: QueueState): QueueState
    requires q.Open()
  {
    q.(bulkIn := Some(q.bulkIn.value + Stamped(q.buffers, q.epoch)), buffers := [], initialized := true)
  }

  function Stamped(buffers: seq<Buffer>, epoch: nat): (r: seq<Buffer>)
    ensures |r| == |buffers|
  {
    seq(|buffers|, i requires 0 <= i < |buffers| => buffers[i].(stamp := epoch))
  }

  /** The fill loop: take completions until one is usable, the endpoint is silent, or the queue
      has closed itself. Also returns how many completions were taken. */
  function FillLoop(q: QueueState, env: seq<Event>): (r: (QueueState, Fill, nat))
    requires q.Inv() && q.initialized && q.current.None?
    ensures r.2 <= |env|
    decreases |env|
  {
    AcceptKeepsInv(q, env);
    if !q.Open() then (q, Failed(StreamClosed), 0)
    else if |env| == 0 || env[0].Silence? then (q, Waiting, 0)
    else
      var (q', usable) := q.Accept(env[0]);
      match usable
      case Err(e) => (q', Failed(e), 1)
      case Ok(true) => (q', Filled, 1)
      case Ok(false) => var r := FillLoop(q', env[1..]); (r.0, r.1, r.2 + 1)
  }

  lemma AcceptKeepsInv(q: QueueState, env: seq<Event>)
    requires q.Inv() && q.initialized && q.current.None?
    ensures q.Open() ==> |q.bulkIn.value| == RFONE_TRANSFER_COUNT
    ensures q.Open() && |env| > 0 && env[0].Done? ==>
      && q.Accept(env[0]).0.Inv() && q.Accept(env[0]).0.initialized
      && (q.Accept(env[0]).1 == Ok(false) ==> q.Accept(env[0]).0.current.None?)
  {
  }

  /** How `wait_fill` reports the end of a fill; its time-out is a silent endpoint. */
  function Waited(f: Fill): Result<bool> {
    match f
    case Filled => Ok(true)
    case Waiting => Ok(false)
    case Failed(error) => Err(error)
  }

  /** `poll_fill` and `wait_fill`: nothing to do while a buffer is current. */
  function FillQueue(q: QueueState, env: seq<Event>): (r: (QueueState, Fill, nat))
    requires q.Inv() && q.initialized
  {
    if q.current.Some? then (q, Filled, 0) else FillLoop(q, env)
  }

  /** What becomes of a completion. That of a buffer submitted before the latest pause is discarded
      whatever it says, and its buffer goes to the end of the endpoint's list. Of any other one, a
      failed status closes the queue even if the length is right, and so does a wrong length. */
  lemma AcceptVerdict(q: QueueState, c: Event)
    requires q.Inv() && q.initialized && q.Open() && |q.bulkIn.value| > 0 && c.Done?
    ensures var (t, r) := q.Accept(c);
      var first, rest := q.bulkIn.value[0].(bytes := c.bytes), q.bulkIn.value[1..];
      var whole := if q.settings.packing then 147_456 else 262_144;
      var received, processed, dropped, discarded :=
        q.stats.received, q.stats.processed, q.stats.dropped, q.stats.discardedOnRestart;
      && t.settings == q.settings && t.epoch == q.epoch && t.liveDiscards == q.liveDiscards
      && (first.stamp < q.epoch ==>
            && r == Ok(false) && t.Open() && t.bulkIn.value == rest + [first.(stamp := q.epoch)]
            && t.current == q.current && t.discardRemaining == q.discardRemaining - 1
            && t.staleTaken == q.staleTaken + 1
            && t.stats == StreamingStats(received + 1, processed, dropped + 1, discarded + 1))
      && (first.stamp == q.epoch ==> t.discardRemaining == q.discardRemaining == 0 && t.staleTaken == q.staleTaken)
      && (first.stamp == q.epoch && !c.ok ==> r == Err(Transfer))
      && (first.stamp == q.epoch && c.ok && (c.actualLen != whole || whole > |c.bytes|) ==> r == Err(Protocol))
      && (r.Err? ==>
            && t.bulkIn.None? && t.current.None? && t.buffers == []
            && t.stats == StreamingStats(received + 1, processed, dropped + 1, discarded))
      && (first.stamp == q.epoch && c.ok && c.actualLen == whole <= |c.bytes| ==>
            && r == Ok(true) && t.bulkIn == Some(rest) && t.current == Some(first) && t.currentLen == whole
            && t.stats == StreamingStats(received + 1, processed + 1, dropped, discarded))
  {
  }

  /** A fill keeps the invariant, takes at most `discardRemaining + 1` completions, never asks for one
      unless all sixteen buffers are pending, and counts each of them exactly. */
  lemma {:induction false} FillLoopKeeps(q: QueueState, env: seq<Event>)
    requires q.Inv() && q.initialized && q.current.None?
    ensures var (q', outcome, used) := FillLoop(q, env);
      && q'.Inv() && q'.initialized && q'.epoch == q.epoch && q'.settings == q.settings
      && used <= q.discardRemaining + 1
      && q'.discardRemaining <= q.discardRemaining
      && (outcome.Filled? <==> q'.current.Some?)
      && (outcome.Failed? <==> !q'.Open())
      && q.stats.AtMost(q'.stats) && q'.liveDiscards == q.liveDiscards
      && q'.stats.received == q.stats.received + used
      && q'.stats.processed == q.stats.processed + (if outcome.Filled? then 1 else 0)
      && q'.stats.dropped + q'.stats.processed == q.stats.dropped + q.stats.processed + used
      && q'.stats.discardedOnRestart + q'.discardRemaining == q.stats.discardedOnRestart + q.discardRemaining
    decreases |env|
  {
    hide QueueState.Inv, QueueState.Submit;
    AcceptKeepsInv(q, env);
    AcceptIs(q, env);
    if q.Open() && |env| > 0 && env[0].Done? && q.Accept(env[0]).1 == Ok(false) {
      FillLoopKeeps(q.Accept(env[0]).0, env[1..]);
    }
  }

  lemma AcceptIs(q: QueueState, env: seq<Event>)
    requires q.Inv() && q.initialized && q.current.None?
    ensures !q.Open() ==> q.current.None?
    ensures q.Open() ==> |q.bulkIn.value| > 0
    ensures q.Open() && |env| > 0 && env[0].Done? ==>
      var (q', r) := q.Accept(env[0]);
      && q'.initialized && q'.epoch == q.epoch && q'.settings == q.settings && q.stats.AtMost(q'.stats)
      && q'.liveDiscards == q.liveDiscards && q'.stats.received == q.stats.received + 1
      && q'.stats.processed == q.stats.processed + (if r == Ok(true) then 1 else 0)
      && q'.stats.dropped == q.stats.dropped + (if r == Ok(true) then 0 else 1)
      && q'.stats.discardedOnRestart == q.stats.discardedOnRestart + (if r == Ok(false) then 1 else 0)
      && (r.Err? ==> !q'.Open() && q'.current.None? && q'.discardRemaining == q.discardRemaining == 0 && q'.Inv())
      && (r == Ok(true) ==> q'.Open() && q'.current.Some? && q'.discardRemaining == q.discardRemaining == 0)
      && (r == Ok(false) ==> q'.Open() && q'.discardRemaining == q.discardRemaining - 1)
  {
    AcceptKeepsInv(q, env);
  }

  /** Exactly what a fill delivers after a pause: with `d` stale submissions ahead, it discards the
      next `d` completions, whatever they are, and resubmits their buffers in order; the one after
      that becomes current if it is whole. */
  lemma {:induction false} FillDelivers(q: QueueState, env: seq<Event>, d: nat)
    requires q.Inv() && q.initialized && q.current.None? && q.Open() && d == q.discardRemaining
    requires |env| > d && forall i :: 0 <= i <= d ==> env[i].Done?
    requires env[d].ok && env[d].actualLen == ExpectedLen(q.settings.packing) <= |env[d].bytes|
    ensures var (q', outcome, used) := FillLoop(q, env);
      && outcome == Filled && used == d + 1
      && q'.current.Some? && q'.current.value.bytes == env[d].bytes && q'.currentLen == env[d].actualLen
      && (d < RFONE_TRANSFER_COUNT ==> q'.current.value == q.bulkIn.value[d].(bytes := env[d].bytes))
      && (d == RFONE_TRANSFER_COUNT ==> q'.current.value == q.bulkIn.value[0].(bytes := env[d].bytes, stamp := q.epoch))
      && q'.stats == StreamingStats(q.stats.received + d + 1, q.stats.processed + 1,
                                    q.stats.dropped + d, q.stats.discardedOnRestart + d)
    decreases d
  {
    AcceptKeepsInv(q, env);
    if d > 0 {
      var q' := q.Accept(env[0]).0;
      assert d < RFONE_TRANSFER_COUNT ==> q'.bulkIn.value[d - 1] == q.bulkIn.value[d];
      assert q'.bulkIn.value[15] == q.bulkIn.value[0].(bytes := env[0].bytes, stamp := q.epoch);
      FillDelivers(q', env[1..], d - 1);
    }
  }

  /** How a fill ends, by the completions alone. The first `discardRemaining` of them are discarded,
      good or bad. If one of these or the next is missing, the fill waits; otherwise the next one
      decides it. */
  lemma {:induction false} FillEnds(q: QueueState, env: seq<Event>)
    requires q.Inv() && q.initialized && q.current.None?
    ensures var end, d := FillLoop(q, env).1, q.discardRemaining;
      var whole := if q.settings.packing then 147_456 else 262_144;
      var reached := |env| > d && forall i :: 0 <= i <= d ==> env[i].Done?;
      && (!q.Open() ==> end == Failed(StreamClosed))
      && (q.Open() && !reached ==> end == Waiting)
      && (q.Open() && reached && !env[d].ok ==> end == Failed(Transfer))
      && (q.Open() && reached && env[d].ok && (env[d].actualLen != whole || whole > |env[d].bytes|) ==>
            end == Failed(Protocol))
      && (q.Open() && reached && env[d].ok && env[d].actualLen == whole <= |env[d].bytes| ==> end == Filled)
    decreases |env|
  {
    hide QueueState.Inv, QueueState.Accept;
    AcceptKeepsInv(q, env);
    AcceptIs(q, env);
    if q.Open() && |env| > 0 && env[0].Done? {
      AcceptOutcome(q, env[0]);
      if q.Accept(env[0]).1 == Ok(false) {
        FillEnds(q.Accept(env[0]).0, env[1..]);
        assert forall i :: 0 < i < |env| ==> env[i] == env[1..][i - 1];
      }
    }
  }

  /** Which completion gets which verdict, by the discard count. */
  lemma AcceptOutcome(q: QueueState, c: Event)
    requires q.Inv() && q.initialized && q.Open() && |q.bulkIn.value| > 0 && c.Done?
    ensures var r := q.Accept(c).1;
      var whole := if q.settings.packing then 147_456 else 262_144;
      r == if q.discardRemaining > 0 then Ok(false)
           else if !c.ok then Err(Transfer)
           else if c.actualLen != whole || whole > |c.bytes| then Err(Protocol)
           else Ok(true)
  {
  }

  // ---- Runs ----

  datatype Op =
    | Initialize(ok: bool)
    | Release
    | Discard
    | PauseQueue
    | CloseQueue
    | Decimate(decimation: nat)
    | FillUp(env: seq<Event>)

  /** One operation of the receiver on its queue. Operations the receiver never makes in a state
      change nothing. */
  function Step(q: QueueState, op: Op): QueueState
    requires q.Inv()
  {
    match op
    case Initialize(ok) => if ok && q.Open() && !q.initialized then Initialized(q) else q
    case Release => q.ReleaseCurrent()
    case Discard => q.DiscardCurrent()
    case PauseQueue => q.Pause()
    case CloseQueue => q.Close()
    case Decimate(d) => q.(settings := q.settings.(decimation := d))
    case FillUp(env) => if q.initialized then FillQueue(q, env).0 else q
  }

  lemma StepKeepsInv(q: QueueState, op: Op)
    requires q.Inv()
    ensures Step(q, op).Inv()
    ensures q.stats.AtMost(Step(q, op).stats)
    ensures q.epoch <= Step(q, op).epoch
  {
    match op
    case FillUp(env) =>
      hide QueueState.Inv;
      if q.initialized && q.current.None? { FillLoopKeeps(q, env); }
    case Initialize(ok) =>
    case Release => ReleaseKeepsInv(q);
    case Discard => DiscardKeepsInv(q);
    case PauseQueue => PauseKeepsInv(q);
    case CloseQueue =>
    case Decimate(d) =>
  }

  lemma ReleaseKeepsInv(q: QueueState)
    requires q.Inv()
    ensures q.ReleaseCurrent().Inv()
  {
  }

  /** A current buffer that is given up is counted as dropped and goes to the end of the endpoint's
      list; nothing else changes, and without a current buffer nothing changes at all. */
  lemma DiscardKeepsInv(q: QueueState)
    requires q.Inv()
    ensures q.DiscardCurrent().Inv()
    ensures q.current.None? ==> q.DiscardCurrent() == q
    ensures q.current.Some? ==> q.Open()
    ensures q.current.Some? ==>
      var t := q.DiscardCurrent();
      && t.current.None? && t.bulkIn == Some(q.bulkIn.value + [q.current.value])
      && t.discardRemaining == q.discardRemaining && t.stats == q.stats.(dropped := q.stats.dropped + 1)
      && t.epoch == q.epoch && t.settings == q.settings && t.initialized == q.initialized && t.buffers == q.buffers
  {
  }

  /** A pause makes everything that was submitted stale: what was pending stays pending in its order,
      what was current joins it, and all of it is to be discarded. */
  lemma PauseKeepsInv(q: QueueState)
    requires q.Inv()
    ensures q.Pause().Inv() && q.Pause().current.None?
    ensures q.Open() ==>
      && q.Pause().Open() && q.bulkIn.value <= q.Pause().bulkIn.value
      && q.Pause().discardRemaining == |q.Pause().bulkIn.value| == 16 - |q.buffers|
      && q.Pause().epoch == q.epoch + 1
    ensures q.Pause().Open() == q.Open() && q.Pause().initialized == q.initialized
    ensures q.Pause().stats == q.stats && q.Pause().settings == q.settings
  {
    ReleaseKeepsInv(q);
  }

  function Run(q: QueueState, ops: seq<Op>): (r: QueueState)
    requires q.Inv()
    ensures r.Inv() && q.epoch <= r.epoch && q.stats.AtMost(r.stats)
    decreases |ops|
  {
    if |ops| == 0 then q
    else StepKeepsInv(q, ops[0]); Run(Step(q, ops[0]), ops[1..])
  }

  /** A new queue satisfies the invariant, whatever its endpoint had pending. */
  lemma NewQueueInv(pending: seq<Buffer>, settings: ReceiveSettings)
    requires |pending| <= RFONE_TRANSFER_COUNT
    requires forall b :: b in pending ==> b.capacity == ExpectedLen(settings.packing) && b.stamp == 0
    ensures NewQueue(pending, settings).Inv()
  {
  }

  /** Restart safety, over all runs: whatever happens before and after a pause, no buffer that was
      submitted before the pause is current afterwards; and the pending ones still to be
      discarded are exactly those submitted before the latest pause. */
  lemma RestartSafety(q: QueueState, before: seq<Op>, after: seq<Op>)
    requires q.Inv() && Run(q, before).Open()
    ensures var paused := Run(q, before).Pause();
      paused.Inv() &&
      var later := Run(paused, after);
      && (forall b :: b in paused.bulkIn.value ==> b.stamp < paused.epoch)
      && (later.current.Some? ==> later.current.value.stamp >= paused.epoch)
      && (later.Open() ==> forall i {:trigger later.bulkIn.value[i]} :: 0 <= i < |later.bulkIn.value| ==>
            (i < later.discardRemaining <==> later.bulkIn.value[i].stamp < later.epoch))
  {
    PauseKeepsInv(Run(q, before));
  }

  // ---- The queue object ----

  class Queue {
    var bulkIn: Option<seq<Buffer>>
    var buffers: seq<Buffer>
    var initialized: bool
    var current: Option<Buffer>
    var currentLen: nat
    var settings: ReceiveSettings
    var stats: StreamingStats
    var discardRemaining: nat
    /** Instrumentation: pauses that have taken effect, live discards, and stale completions. */
    var epoch: nat
    var liveDiscards: nat
    var staleTaken: nat

    ghost function State(): QueueState
      reads this
    {
      QueueState(bulkIn, buffers, initialized, current, currentLen, settings, stats, discardRemaining, epoch,
          liveDiscards, staleTaken)
    }

    constructor (pending: seq<Buffer>, settings: ReceiveSettings)
      ensures State() == NewQueue(pending, settings)
    {
      var missing := if |pending| <= RFONE_TRANSFER_COUNT then RFONE_TRANSFER_COUNT - |pending| else 0;
      var len := if settings.packing then PACKED_BUFFER_SIZE else DEFAULT_BUFFER_SIZE;
      bulkIn := Some(pending);
      buffers := seq(missing, _ => Buffer(len, [], 0));
      initialized := false;
      current, currentLen := None, 0;
      this.settings := settings;
      stats := NO_STATS;
      discardRemaining, epoch, liveDiscards, staleTaken := 0, 0, 0, 0;
    }

    /** The endpoint's `submit`. */
    method Submit(buffer: Buffer)
      requires bulkIn.Some?
      modifies this`bulkIn
      ensures State() == old(State()).Submit(buffer)
    {
      bulkIn := Some(bulkIn.value + [buffer.(stamp := epoch)]);
    }

    /** `initialize`: `cleared` is what clearing the endpoint's halt condition reports. */
    method Initialize(cleared: bool) returns (r: Result<()>)
      requires bulkIn.Some?
      modifies this
      ensures r == if cleared then Ok(()) else Err(Transfer)
      ensures State() == if cleared then Initialized(old(State())) else old(State())
    {
      if !cleared {
        return Err(Transfer);
      }
      ghost var before := State();
      var i := 0;
      assert bulkIn.value + Stamped(buffers[..0], epoch) == bulkIn.value;
      while i < |buffers|
        invariant 0 <= i <= |buffers| == |before.buffers|
        invariant State() == before.(bulkIn := bulkIn) && bulkIn.Some?
        invariant bulkIn.value == before.bulkIn.value + Stamped(before.buffers[..i], before.epoch)
      {
        Submit(buffers[i]);
        assert Stamped(before.buffers[..i + 1], epoch)
            == Stamped(before.buffers[..i], epoch) + [before.buffers[i].(stamp := epoch)];
        i := i + 1;
      }
      assert before.buffers[..i] == before.buffers;
      buffers := [];
      initialized := true;
      return Ok(());
    }

    method ReleaseCurrent()
      modifies this
      ensures State() == old(State()).ReleaseCurrent()
    {
      if current.Some? {
        var buffer := current.value;
        current := None;
        if bulkIn.Some? {
          Submit(buffer);
        }
      }
      currentLen := 0;
    }

    method DiscardCurrent()
      modifies this
      ensures State() == old(State()).DiscardCurrent()
    {
      if current.Some? {
        stats := stats.(dropped := stats.dropped + 1);
        liveDiscards := liveDiscards + 1;
      }
      ReleaseCurrent();
    }

    method Pause()
      modifies this
      ensures State() == old(State()).Pause()
    {
      ReleaseCurrent();
      if bulkIn.Some? {
        discardRemaining := |bulkIn.value|;
        epoch := epoch + 1;
      }
    }

    method Close() returns (final: StreamingStats)
      modifies this
      ensures State() == old(State()).Close() && final == stats
    {
      bulkIn := None;
      current := None;
      buffers := [];
      currentLen := 0;
      final := stats;
    }

    /** `accept`: true for a usable completion, false for a pre-restart submission. */
    method Accept(completion: Event) returns (r: Result<bool>)
      requires bulkIn.Some? && |bulkIn.value| > 0 && completion.Done?
      modifies this
      ensures (State(), r) == old(State()).Accept(completion)
    {
      var buffer := bulkIn.value[0].(bytes := completion.bytes);
      bulkIn := Some(bulkIn.value[1..]);
      stats := stats.(received := stats.received + 1);
      if buffer.stamp < epoch {
        staleTaken := staleTaken + 1;
      }
      if discardRemaining != 0 {
        discardRemaining := discardRemaining - 1;
        stats := stats.(dropped := stats.dropped + 1);
        stats := stats.(discardedOnRestart := stats.discardedOnRestart + 1);
        Submit(buffer);
        return Ok(false);
      }
      var expected := if settings.packing then PACKED_BUFFER_SIZE else DEFAULT_BUFFER_SIZE;
      var error := None;
      if !completion.ok {
        error := Some(Transfer);
      } else if completion.actualLen != expected || completion.actualLen > |buffer.bytes| {
        error := Some(Protocol);
      }
      if error.Some? {
        stats := stats.(dropped := stats.dropped + 1);
        var _ := Close();
        return Err(error.value);
      }
      current := Some(buffer);
      currentLen := completion.actualLen;
      stats := stats.(processed := stats.processed + 1);
      return Ok(true);
    }

    /** `poll_fill`. */
    method PollFill(env: seq<Event>) returns (fill: Fill, ghost used: nat)
      requires State().Inv() && initialized
      modifies this
      ensures (State(), fill, used) == FillQueue(old(State()), env)
    {
      hide QueueState.Inv, QueueState.Accept;
      used := 0;
      if current.Some? {
        return Filled, 0;
      }
      var i := 0;
      while true
        invariant i <= |env| && used == i
        invariant State().Inv() && initialized && current.None?
        invariant var rest := FillLoop(State(), env[i..]);
          FillLoop(old(State()), env) == (rest.0, rest.1, rest.2 + i)
        decreases |env| - i
      {
        AcceptKeepsInv(State(), env[i..]);
        if bulkIn.None? {
          return Failed(StreamClosed), i;
        }
        if i == |env| || env[i].Silence? {
          return Waiting, i;
        }
        ghost var before := State();
        assert FillLoop(before, env[i..]) == FillLoop(before, [env[i]] + env[i + 1..]) by {
          assert env[i..] == [env[i]] + env[i + 1..];
        }
        var usable := Accept(env[i]);
        i := i + 1;
        used := i;
        if usable.Err? {
          return Failed(usable.error), i;
        }
        if usable.value {
          return Filled, i;
        }
      }
    }

    /** `wait_fill`. */
    method WaitFill(env: seq<Event>) returns (r: Result<bool>, ghost used: nat)
      requires State().Inv() && initialized
      modifies this
      ensures var end := FillQueue(old(State()), env);
        State() == end.0 && r == Waited(end.1) && used == end.2
    {
      hide QueueState.Inv, QueueState.Accept;
      used := 0;
      if current.Some? {
        return Ok(true), 0;
      }
      var i := 0;
      while true
        invariant i <= |env| && used == i
        invariant State().Inv() && initialized && current.None?
        invariant var rest := FillLoop(State(), env[i..]);
          FillLoop(old(State()), env) == (rest.0, rest.1, rest.2 + i)
        decreases |env| - i
      {
        AcceptKeepsInv(State(), env[i..]);
        if bulkIn.None? {
          return Err(StreamClosed), i;
        }
        if i == |env| || env[i].Silence? {
          return Ok(false), i;
        }
        ghost var before := State();
        assert FillLoop(before, env[i..]) == FillLoop(before, [env[i]] + env[i + 1..]) by {
          assert env[i..] == [env[i]] + env[i + 1..];
        }
        var usable := Accept(env[i]);
        i := i + 1;
        used := i;
        if usable.Err? {
          return Err(usable.error), i;
        }
        if usable.value {
          return Ok(true), i;
        }
      }
    }

    /** `block`. */
    function Block(): (r: Result<SampleBlock>)
      requires State().Inv()
      reads this
      ensures r == State().Block()
    {
      if current.None? then Err(StreamClosed)
      else
        var count := if settings.packing then currentLen / 2 * 4 / 3 else currentLen / 2;
        Ok(SampleBlock(current.value.bytes[..currentLen], count, stats.dropped * count))
    }
  }
}
