/** The operation combinators of src/maybe_future.rs. One operation can be executed by a blocking
    wait or by polling a future; this module relates the two.

    `C` is a command that can be submitted, `V` a value. A continuation is a map from the value it
    is given to the operation it returns, so that operations are finite trees. `Raw` is an
    operation of the USB library, which submits its command as soon as it is constructed. */
module MaybeFuture {
  import opened Errors
  import opened Numbers

  datatype Op<!C, !V> =
    | Ready(value: Result<V>)
    | Raw(command: C)
    | Map(inner: Op<C, V>, f: Result<V> -> Result<V>)
    | AndThen(first: Op<C, V>, next: imap<V, Op<C, V>>)
    | ContinueWith(before: Op<C, V>, continuation: imap<Result<V>, Op<C, V>>)
    | Either(left: bool, chosen: Op<C, V>)

  /** The result for a value that a continuation is never given. */
  function NoContinuation<V>(): Result<V> { Err(Protocol) }

  /** The commands submitted by constructing an operation. */
  function Built<C, V(!new)>(op: Op<C, V>): (s: seq<C>)
    decreases op
  {
    match op
    case Ready(_) => []
    case Raw(c) => [c]
    case Map(inner, _) => Built(inner)
    case AndThen(first, _) => Built(first)
    case ContinueWith(before, _) => Built(before)
    case Either(_, chosen) => Built(chosen)
  }

  /** `wait`: the result, and everything submitted so far. `env` answers a transfer, knowing all
      that has been submitted; `trace` includes what constructing `op` submitted. */
  function Wait<C, V(!new)>(op: Op<C, V>, env: seq<C> -> Result<V>, trace: seq<C>): (Result<V>, seq<C>)
    decreases op
  {
    match op
    case Ready(v) => (v, trace)
    case Raw(_) => (env(trace), trace)
    case Map(inner, f) => var r := Wait(inner, env, trace); (f(r.0), r.1)
    case AndThen(first, next) =>
      var r := Wait(first, env, trace);
      if r.0.Err? then r
      else if r.0.value !in next then (NoContinuation(), r.1)
      else Wait(next[r.0.value], env, r.1 + Built(next[r.0.value]))
    case ContinueWith(before, continuation) =>
      var r := Wait(before, env, trace);
      if r.0 !in continuation then (NoContinuation(), r.1)
      else Wait(continuation[r.0], env, r.1 + Built(continuation[r.0]))
    case Either(_, chosen) => Wait(chosen, env, trace)
  }

  datatype Polled<!C, !V> = Pending(rest: Op<C, V>) | Done(value: Result<V>)

  /** One poll, on what is left of the operation. The `t`-th time any transfer is asked for its
      answer, `ready(t)` says whether the answer is there. */
  function Poll<C, V(!new)>(op: Op<C, V>, env: seq<C> -> Result<V>, ready: nat -> bool, trace: seq<C>, t: nat)
    : (r: (Polled<C, V>, seq<C>, nat))
    decreases op
  {
    match op
    case Ready(v) => (Done(v), trace, t)
    case Raw(_) => if ready(t) then (Done(env(trace)), trace, t + 1) else (Pending(op), trace, t + 1)
    case Map(inner, f) =>
      var r := Poll(inner, env, ready, trace, t);
      (if r.0.Pending? then Pending(Map(r.0.rest, f)) else Done(f(r.0.value)), r.1, r.2)
    case AndThen(first, next) =>
      var r := Poll(first, env, ready, trace, t);
      if r.0.Pending? then (Pending(AndThen(r.0.rest, next)), r.1, r.2)
      else if r.0.value.Err? then r
      else if r.0.value.value !in next then (Done(NoContinuation()), r.1, r.2)
      else Poll(next[r.0.value.value], env, ready, r.1 + Built(next[r.0.value.value]), r.2)
    case ContinueWith(before, continuation) =>
      var r := Poll(before, env, ready, trace, t);
      if r.0.Pending? then (Pending(ContinueWith(r.0.rest, continuation)), r.1, r.2)
      else if r.0.value !in continuation then (Done(NoContinuation()), r.1, r.2)
      else Poll(continuation[r.0.value], env, ready, r.1 + Built(continuation[r.0.value]), r.2)
    case Either(left, chosen) =>
      var r := Poll(chosen, env, ready, trace, t);
      (if r.0.Pending? then Pending(Either(left, r.0.rest)) else r.0, r.1, r.2)
  }

  // ---- Blocking and polled execution agree ----

  /** A wait only adds to what has been submitted. */
  lemma {:induction false} WaitExtends<C, V(!new)>(op: Op<C, V>, env: seq<C> -> Result<V>, trace: seq<C>)
    ensures trace <= Wait(op, env, trace).1
    decreases op
  {
    match op
    case Ready(_) =>
    case Raw(_) =>
    case Map(inner, _) => WaitExtends(inner, env, trace);
    case AndThen(first, next) =>
      WaitExtends(first, env, trace);
      var r := Wait(first, env, trace);
      if r.0.Ok? && r.0.value in next {
        WaitExtends(next[r.0.value], env, r.1 + Built(next[r.0.value]));
      }
    case ContinueWith(before, continuation) =>
      WaitExtends(before, env, trace);
      var r := Wait(before, env, trace);
      if r.0 in continuation {
        WaitExtends(continuation[r.0], env, r.1 + Built(continuation[r.0]));
      }
    case Either(_, chosen) => WaitExtends(chosen, env, trace);
  }

  /** One poll either finishes with the result and the submissions of a wait, or leaves an
      operation of which a wait still gives that result and those submissions. A pending poll has
      met an answer that was not there. */
  ghost predicate Agrees<C, V(!new)>(
    op: Op<C, V>, env: seq<C> -> Result<V>, ready: nat -> bool, trace: seq<C>, t: nat)
  {
    var (p, trace', t') := Poll(op, env, ready, trace, t);
    && trace <= trace' && t <= t'
    && (p.Done? ==> (p.value, trace') == Wait(op, env, trace))
    && (p.Pending? ==> Wait(p.rest, env, trace') == Wait(op, env, trace) && t < t' && !ready(t' - 1))
  }

  lemma {:induction false} PollAgrees<C, V(!new)>(
    op: Op<C, V>, env: seq<C> -> Result<V>, ready: nat -> bool, trace: seq<C>, t: nat)
    ensures Agrees(op, env, ready, trace, t)
    decreases op, 1
  {
    hide Built;
    match op
    case Ready(_) =>
    case Raw(_) =>
    case Map(inner, _) => PollAgrees(inner, env, ready, trace, t);
    case AndThen(_, _) => PollAgreesAndThen(op, env, ready, trace, t);
    case ContinueWith(_, _) => PollAgreesContinueWith(op, env, ready, trace, t);
    case Either(_, chosen) => PollAgrees(chosen, env, ready, trace, t);
  }

  lemma {:induction false} PollAgreesAndThen<C, V(!new)>(
    op: Op<C, V>, env: seq<C> -> Result<V>, ready: nat -> bool, trace: seq<C>, t: nat)
    requires op.AndThen?
    ensures Agrees(op, env, ready, trace, t)
    decreases op, 0
  {
    hide Built;
    PollAgrees(op.first, env, ready, trace, t);
    var (p, trace', t') := Poll(op.first, env, ready, trace, t);
    if p.Done? && p.value.Ok? && p.value.value in op.next {
      PollAgrees(op.next[p.value.value], env, ready, trace' + Built(op.next[p.value.value]), t');
    }
  }

  lemma {:induction false} PollAgreesContinueWith<C, V(!new)>(
    op: Op<C, V>, env: seq<C> -> Result<V>, ready: nat -> bool, trace: seq<C>, t: nat)
    requires op.ContinueWith?
    ensures Agrees(op, env, ready, trace, t)
    decreases op, 0
  {
    hide Built;
    PollAgrees(op.before, env, ready, trace, t);
    var (p, trace', t') := Poll(op.before, env, ready, trace, t);
    if p.Done? && p.value in op.continuation {
      PollAgrees(op.continuation[p.value], env, ready, trace' + Built(op.continuation[p.value]), t');
    }
  }

  /** At most `n` polls, stopping at the first that is not pending. */
  function Polls<C, V(!new)>(op: Op<C, V>, env: seq<C> -> Result<V>, ready: nat -> bool, trace: seq<C>, t: nat, n: nat)
    : (Polled<C, V>, seq<C>, nat)
    decreases n
  {
    if n == 0 then (Pending(op), trace, t)
    else
      var r := Poll(op, env, ready, trace, t);
      if r.0.Done? then r else Polls(r.0.rest, env, ready, r.1, r.2, n - 1)
  }

  /** Blocking and polled execution agree, for every operation, every environment and every timing
      of its answers. Polled to the end, an operation gives the result and the submissions of a
      wait. Dropped after any number of polls, it has submitted a prefix of them, and if it was
      never polled, nothing. And it does come to its end once answers stop being late. */
  lemma {:induction false} Execution<C, V(!new)>(
    op: Op<C, V>, env: seq<C> -> Result<V>, ready: nat -> bool, trace: seq<C>, t: nat, n: nat)
    ensures var (p, trace', _) := Polls(op, env, ready, trace, t, n);
      && (p.Done? ==> (p.value, trace') == Wait(op, env, trace))
      && trace <= trace' <= Wait(op, env, trace).1
      && (n == 0 ==> trace' == trace)
      && ((forall k :: k >= t + n ==> ready(k)) ==> Polls(op, env, ready, trace, t, n + 1).0.Done?)
    decreases n
  {
    PollAgrees(op, env, ready, trace, t);
    WaitExtends(op, env, trace);
    if n > 0 {
      var r := Poll(op, env, ready, trace, t);
      if r.0.Pending? {
        Execution(r.0.rest, env, ready, r.1, r.2, n - 1);
      }
    }
  }

  // ---- The futures ----

  /** What `into_future` makes of an operation: the fields of the source's future objects. */
  datatype Fut<!C, !V> =
    | ReadyFut(value: Option<Result<V>>)
    | RawFut(command: C)
    | MapFut(inner: Fut<C, V>, f: Result<V> -> Result<V>)
    | AndThenFut(first: Option<Fut<C, V>>, next: Option<imap<V, Op<C, V>>>, second: Option<Fut<C, V>>)
    | ContinueWithFut(before: Option<Fut<C, V>>, continuation: Option<imap<Result<V>, Op<C, V>>>,
        after: Option<Fut<C, V>>)
    | EitherFut(left: bool, chosen: Fut<C, V>)

  function IntoFuture<C, V(!new)>(op: Op<C, V>): (f: Fut<C, V>)
    ensures Live(f) && Residual(f) == op
    decreases op
  {
    match op
    case Ready(v) => ReadyFut(Some(v))
    case Raw(c) => RawFut(c)
    case Map(inner, f) => MapFut(IntoFuture(inner), f)
    case AndThen(first, next) => AndThenFut(Some(IntoFuture(first)), Some(next), None)
    case ContinueWith(before, continuation) => ContinueWithFut(Some(IntoFuture(before)), Some(continuation), None)
    case Either(left, chosen) => EitherFut(left, IntoFuture(chosen))
  }

  /** A future that has not completed: it can be polled without a panic. */
  predicate Live<C, V>(f: Fut<C, V>)
    decreases f
  {
    match f
    case ReadyFut(v) => v.Some?
    case RawFut(_) => true
    case MapFut(inner, _) => Live(inner)
    case AndThenFut(first, next, second) =>
      if second.Some? then Live(second.value) else first.Some? && next.Some? && Live(first.value)
    case ContinueWithFut(before, continuation, after) =>
      if after.Some? then Live(after.value) else before.Some? && continuation.Some? && Live(before.value)
    case EitherFut(_, chosen) => Live(chosen)
  }

  /** The operation that a future still has to execute. */
  function Residual<C, V>(f: Fut<C, V>): Op<C, V>
    requires Live(f)
    decreases f
  {
    match f
    case ReadyFut(v) => Ready(v.value)
    case RawFut(c) => Raw(c)
    case MapFut(inner, g) => Map(Residual(inner), g)
    case AndThenFut(first, next, second) =>
      if second.Some? then Residual(second.value) else AndThen(Residual(first.value), next.value)
    case ContinueWithFut(before, continuation, after) =>
      if after.Some? then Residual(after.value) else ContinueWith(Residual(before.value), continuation.value)
    case EitherFut(left, chosen) => Either(left, Residual(chosen))
  }

  /** `poll`, on the future objects: the loop of a chaining future polls its first operation until
      that completes, then builds the second from its result and polls it in the same call. */
  method PollFuture<C, V(!new)>(f: Fut<C, V>, env: seq<C> -> Result<V>, ready: nat -> bool, trace: seq<C>, t: nat)
    returns (f': Fut<C, V>, r: Option<Result<V>>, trace': seq<C>, t': nat)
    requires Live(f)
    ensures r.None? ==> Live(f') && Poll(Residual(f), env, ready, trace, t) == (Pending(Residual(f')), trace', t')
    ensures r.Some? ==> Poll(Residual(f), env, ready, trace, t) == (Done(r.value), trace', t')
    decreases Residual(f), f
  {
    match f {
      case ReadyFut(v) =>
        return ReadyFut(None), v, trace, t;
      case RawFut(_) =>
        return f, if ready(t) then Some(env(trace)) else None, trace, t + 1;
      case MapFut(inner, g) =>
        var inner';
        inner', r, trace', t' := PollFuture(inner, env, ready, trace, t);
        return MapFut(inner', g), if r.Some? then Some(g(r.value)) else None, trace', t';
      case EitherFut(left, chosen) =>
        var chosen';
        chosen', r, trace', t' := PollFuture(chosen, env, ready, trace, t);
        return EitherFut(left, chosen'), r, trace', t';
      case AndThenFut(_, _, _) =>
        f', r, trace', t' := PollAndThen(f, env, ready, trace, t);
      case ContinueWithFut(_, _, _) =>
        f', r, trace', t' := PollContinueWith(f, env, ready, trace, t);
    }
  }

  method PollAndThen<C, V(!new)>(f: Fut<C, V>, env: seq<C> -> Result<V>, ready: nat -> bool, trace: seq<C>, t: nat)
    returns (f': Fut<C, V>, r: Option<Result<V>>, trace': seq<C>, t': nat)
    requires Live(f) && f.AndThenFut?
    ensures r.None? ==> Live(f') && Poll(Residual(f), env, ready, trace, t) == (Pending(Residual(f')), trace', t')
    ensures r.Some? ==> Poll(Residual(f), env, ready, trace, t) == (Done(r.value), trace', t')
    decreases Residual(f), f, 0
  {
    var first, next, second := f.first, f.next, f.second;
    trace', t' := trace, t;
    while true
      invariant second.None? ==> first == f.first && next == f.next && f.second.None? && trace' == trace && t' == t
      invariant second.Some? ==> Live(second.value)
      invariant second.Some? ==>
          Poll(Residual(f), env, ready, trace, t) == Poll(Residual(second.value), env, ready, trace', t')
      invariant second.Some? ==> second == f.second || (f.second.None? && Residual(second.value) in f.next.value.Values)
      decreases second.None?
    {
      if second.Some? {
        var second';
        second', r, trace', t' := PollFuture(second.value, env, ready, trace', t');
        return AndThenFut(first, next, Some(second')), r, trace', t';
      }
      var first';
      first', r, trace', t' := PollFuture(first.value, env, ready, trace', t');
      if r.None? {
        return AndThenFut(Some(first'), next, second), None, trace', t';
      }
      first := None;
      if r.value.Err? {
        return AndThenFut(None, next, None), r, trace', t';
      }
      var v := r.value.value;
      if v !in next.value {
        return AndThenFut(None, None, None), Some(NoContinuation()), trace', t';
      }
      var op := next.value[v];
      next := None;
      trace' := trace' + Built(op);
      second := Some(IntoFuture(op));
    }
  }

  method PollContinueWith<C, V(!new)>(f: Fut<C, V>, env: seq<C> -> Result<V>, ready: nat -> bool, trace: seq<C>, t: nat)
    returns (f': Fut<C, V>, r: Option<Result<V>>, trace': seq<C>, t': nat)
    requires Live(f) && f.ContinueWithFut?
    ensures r.None? ==> Live(f') && Poll(Residual(f), env, ready, trace, t) == (Pending(Residual(f')), trace', t')
    ensures r.Some? ==> Poll(Residual(f), env, ready, trace, t) == (Done(r.value), trace', t')
    decreases Residual(f), f, 0
  {
    var before, continuation, after := f.before, f.continuation, f.after;
    trace', t' := trace, t;
    while true
      invariant after.None? ==> before == f.before && continuation == f.continuation && f.after.None?
      invariant after.None? ==> trace' == trace && t' == t
      invariant after.Some? ==> Live(after.value)
      invariant after.Some? ==>
          Poll(Residual(f), env, ready, trace, t) == Poll(Residual(after.value), env, ready, trace', t')
      invariant after.Some? ==>
          after == f.after || (f.after.None? && Residual(after.value) in f.continuation.value.Values)
      decreases after.None?
    {
      if after.Some? {
        var after';
        after', r, trace', t' := PollFuture(after.value, env, ready, trace', t');
        return ContinueWithFut(before, continuation, Some(after')), r, trace', t';
      }
      var before';
      before', r, trace', t' := PollFuture(before.value, env, ready, trace', t');
      if r.None? {
        return ContinueWithFut(Some(before'), continuation, after), None, trace', t';
      }
      before := None;
      if r.value !in continuation.value {
        return ContinueWithFut(None, None, None), Some(NoContinuation()), trace', t';
      }
      var op := continuation.value[r.value];
      continuation := None;
      trace' := trace' + Built(op);
      after := Some(IntoFuture(op));
    }
  }

  // ---- Deferral and command sequences ----

  predicate Given<K>(x: K) { true }

  /** A continuation that ignores the value it is given. */
  ghost function Always<C, V, K(!new)>(op: Op<C, V>): (k: imap<K, Op<C, V>>)
    ensures forall x: K :: x in k && k[x] == op
  {
    imap x: K | Given(x) :: op
  }

  /** `defer`: `ready(()).continue_with(..)`, with `u` for the unit value. */
  ghost function Defer<C, V(!new)>(u: V, op: Op<C, V>): Op<C, V> {
    ContinueWith(Ready(Ok(u)), Always(op))
  }

  /** Deferral delays what construction submits and changes nothing else: neither the deferred
      operation nor its future has submitted anything before it is waited for or polled, whereas
      an operation that begins with a raw transfer has. */
  lemma DeferIsLazy<C, V(!new)>(
    u: V, c: C, op: Op<C, V>, next: imap<V, Op<C, V>>, env: seq<C> -> Result<V>, trace: seq<C>)
    ensures Built(Defer(u, op)) == []
    ensures Wait(Defer(u, op), env, trace) == Wait(op, env, trace + Built(op))
    ensures Built(AndThen(Raw(c), next)) == [c] && Built(AndThen(Defer(u, Raw(c)), next)) == []
  {
  }

  /** A second command after an operation. Chained with `continue_with` it is submitted whatever the
      operation's result, with `and_then` only after success; and neither submits anything before the
      operation is done. Polled to the end, it is the same. */
  lemma SecondCommand<C, V(!new)>(
    u: V, c: C, before: Op<C, V>, env: seq<C> -> Result<V>, ready: nat -> bool, trace: seq<C>, t: nat, n: nat)
    ensures var (r, sent) := Wait(before, env, trace);
      var always, onSuccess :=
        ContinueWith(before, Always(Defer(u, Raw(c)))), AndThen(before, Always(Defer(u, Raw(c))));
      && Built(always) == Built(onSuccess) == Built(before)
      && Wait(always, env, trace) == (env(sent + [c]), sent + [c])
      && Wait(onSuccess, env, trace) == (if r.Err? then (r, sent) else (env(sent + [c]), sent + [c]))
      && (var (p, trace', _) := Polls(always, env, ready, trace, t, n);
          p.Done? ==> p.value == env(sent + [c]) && trace' == sent + [c])
  {
    hide Polls;
    var (r, sent) := Wait(before, env, trace);
    DeferIsLazy(u, c, Raw(c), Always(Raw(c)), env, sent);
    assert sent + [] == sent;
    Execution(ContinueWith(before, Always(Defer(u, Raw(c)))), env, ready, trace, t, n);
  }

  /** The continuation at the end of `start_pipeline`: after an error a last command, and the error. */
  ghost function Recover<C, V(!new)>(u: V, c: C): imap<Result<V>, Op<C, V>> {
    imap r: Result<V> | Given(r) ::
      if r.Ok? then Either(true, Ready(r)) else Either(false, Map(Defer(u, Raw(c)), _ => r))
  }

  /** It does not change the result, and it submits its command exactly after an error. */
  lemma RecoverKeepsResult<C, V(!new)>(u: V, c: C, before: Op<C, V>, env: seq<C> -> Result<V>, trace: seq<C>)
    ensures var (r, sent) := Wait(before, env, trace);
      Wait(ContinueWith(before, Recover(u, c)), env, trace) == (r, if r.Ok? then sent else sent + [c])
  {
    var (r, sent) := Wait(before, env, trace);
    var k := Recover<C, V>(u, c);
    assert Given(r);
    Recovers(u, c, r, env, sent);
    assert Wait(ContinueWith(before, k), env, trace) == Wait(k[r], env, sent + Built(k[r]));
  }

  lemma Recovers<C, V(!new)>(u: V, c: C, r: Result<V>, env: seq<C> -> Result<V>, sent: seq<C>)
    ensures r in Recover<C, V>(u, c) && Built(Recover<C, V>(u, c)[r]) == []
    ensures Wait(Recover(u, c)[r], env, sent + []) == (r, if r.Ok? then sent else sent + [c])
  {
    assert Given(r) && sent + [] == sent;
    DeferIsLazy(u, c, Raw(c), Always(Raw(c)), env, sent);
    var command: Op<C, V> := Map(Defer(u, Raw(c)), _ => r);
    assert Built(command) == [] && Wait(command, env, sent) == (r, sent + [c]);
    var ready: Op<C, V> := Ready(r);
    assert Built(ready) == [] && Wait(ready, env, sent) == (r, sent);
  }

  /** `Sequence`: each command in turn, as long as none fails. */
  ghost function CommandSequence<C, V(!new)>(u: V, commands: seq<C>): Op<C, V>
    decreases |commands|
  {
    if |commands| == 0 then Ready(Ok(u))
    else AndThen(Defer(u, Raw(commands[0])), Always(CommandSequence(u, commands[1..])))
  }

  lemma CommandSequenceStep<C, V(!new)>(u: V, commands: seq<C>, env: seq<C> -> Result<V>, trace: seq<C>)
    requires |commands| > 0
    ensures Built(CommandSequence<C, V>(u, commands)) == []
    ensures var answer := env(trace + [commands[0]]);
      Wait(CommandSequence(u, commands), env, trace) ==
        if answer.Err? then (answer, trace + [commands[0]])
        else
          var rest := CommandSequence(u, commands[1..]);
          Wait(rest, env, trace + [commands[0]] + Built(rest))
  {
    var c := commands[0];
    DeferIsLazy(u, c, Raw(c), Always(CommandSequence(u, commands[1..])), env, trace);
  }

  /** How many commands of a sequence are submitted. */
  function Submitted<C, V>(commands: seq<C>, env: seq<C> -> Result<V>, trace: seq<C>, n: nat): (m: nat)
    requires n <= |commands|
    ensures n <= m <= |commands|
    ensures forall i {:trigger commands[..i]} :: n < i < m ==> env(trace + commands[..i]).Ok?
    ensures m < |commands| ==> m > n && env(trace + commands[..m]).Err?
    decreases |commands| - n
  {
    if n == |commands| || env(trace + commands[..n + 1]).Err? then (if n == |commands| then n else n + 1)
    else Submitted(commands, env, trace, n + 1)
  }

  /** Executed either way, a sequence submits its commands in order, up to and including the first
      that fails, and returns the answer to the last one; nothing is submitted by building it. */
  lemma {:induction false} SequenceStopsAtFirstFailure<C, V(!new)>(
    u: V, commands: seq<C>, env: seq<C> -> Result<V>, trace: seq<C>, n: nat)
    requires n <= |commands|
    ensures Built(CommandSequence<C, V>(u, commands[n..])) == []
    ensures var (r, trace') := Wait(CommandSequence(u, commands[n..]), env, trace + commands[..n]);
      var m := Submitted(commands, env, trace, n);
      && trace' == trace + commands[..m]
      && (m == n ==> r == Ok(u))
      && (m > n ==> (r.Err? <==> env(trace + commands[..m]).Err?) && (r.Err? ==> r == env(trace + commands[..m])))
    decreases |commands| - n
  {
    hide CommandSequence, Wait, Built;
    if n == |commands| {
      EmptySequence<C, V>(u, env, trace + commands[..n]);
      assert commands[n..] == [];
    } else {
      SequenceStopsAtFirstFailure(u, commands, env, trace, n + 1);
      CommandSequenceStep(u, commands[n..], env, trace + commands[..n]);
      assert commands[n..][0] == commands[n] && commands[n..][1..] == commands[n + 1..];
      assert trace + commands[..n] + [commands[n]] == trace + commands[..n + 1];
      assert trace + commands[..n + 1] + [] == trace + commands[..n + 1];
    }
  }

  lemma EmptySequence<C, V(!new)>(u: V, env: seq<C> -> Result<V>, trace: seq<C>)
    ensures Built(CommandSequence<C, V>(u, [])) == [] && Wait(CommandSequence(u, []), env, trace) == (Ok(u), trace)
  {
  }

  /** Polled instead, whatever the timing and however many polls: no more is submitted than that, and
      once it is done, exactly that, with the same result. */
  lemma PolledSequenceStops<C, V(!new)>(
    u: V, commands: seq<C>, env: seq<C> -> Result<V>, ready: nat -> bool, trace: seq<C>, t: nat, n: nat)
    ensures var (p, trace', _) := Polls(CommandSequence(u, commands), env, ready, trace, t, n);
      var m := Submitted(commands, env, trace, 0);
      && trace <= trace' <= trace + commands[..m]
      && (n == 0 ==> trace' == trace)
      && (p.Done? ==>
            && trace' == trace + commands[..m]
            && (m == 0 ==> p.value == Ok(u))
            && (m > 0 ==> (p.value.Err? <==> env(trace').Err?) && (p.value.Err? ==> p.value == env(trace'))))
  {
    hide CommandSequence, Wait, Polls, Submitted;
    Execution(CommandSequence(u, commands), env, ready, trace, t, n);
    SequenceStopsAtFirstFailure(u, commands, env, trace, 0);
    assert commands[0..] == commands && trace + commands[..0] == trace;
  }

  // ---- The two loops of `Sequence` ----

  /** `wait`: each command is built and waited for. */
  method WaitSequence<C, V(!new)>(u: V, commands: seq<C>, env: seq<C> -> Result<V>, trace: seq<C>)
    returns (r: Result<V>, trace': seq<C>)
    ensures (r, trace') == Wait(CommandSequence(u, commands), env, trace)
  {
    hide CommandSequence, Wait, Built;
    trace' := trace;
    var i := 0;
    assert commands[0..] == commands;
    while i < |commands|
      invariant 0 <= i <= |commands|
      invariant Wait(CommandSequence(u, commands), env, trace) == Wait(CommandSequence(u, commands[i..]), env, trace')
    {
      CommandSequenceStep(u, commands[i..], env, trace');
      NothingBuilt<C, V>(u, commands[i + 1..]);
      assert commands[i..][0] == commands[i] && commands[i..][1..] == commands[i + 1..];
      trace' := trace' + [commands[i]];
      assert trace' + [] == trace';
      var answer := env(trace');
      if answer.Err? {
        return answer, trace';
      }
      i := i + 1;
    }
    EmptySequence<C, V>(u, env, trace');
    assert commands[i..] == [];
    return Ok(u), trace';
  }

  lemma NothingBuilt<C, V(!new)>(u: V, commands: seq<C>)
    ensures Built(CommandSequence<C, V>(u, commands)) == []
  {
    if |commands| > 0 {
      var first: Op<C, V> := Defer(u, Raw(commands[0]));
      assert Built(first) == [];
    }
  }

  lemma PollDefer<C, V(!new)>(u: V, op: Op<C, V>, env: seq<C> -> Result<V>, ready: nat -> bool, trace: seq<C>, t: nat)
    ensures Poll(Defer(u, op), env, ready, trace, t) == Poll(op, env, ready, trace + Built(op), t)
  {
  }

  /** The state of the asynchronous loop: the next command, and whether it has been submitted and is
      being waited for. */
  datatype SequenceFuture<!C> = SequenceFuture(commands: seq<C>, next: nat, waiting: bool)
  {
    predicate Valid() { next <= |commands| && (waiting ==> next < |commands|) }
  }

  /** What such a future still has to execute. */
  ghost function Remaining<C, V(!new)>(u: V, f: SequenceFuture<C>): Op<C, V>
    requires f.Valid()
  {
    if f.waiting then AndThen(Raw(f.commands[f.next]), Always(CommandSequence(u, f.commands[f.next + 1..])))
    else CommandSequence(u, f.commands[f.next..])
  }

  /** One poll of the asynchronous loop: it goes on from the await it was at, and from command to
      command, until an answer is not there, is an error, or was the last. */
  method PollSequence<C, V(!new)>(
    u: V, f: SequenceFuture<C>, env: seq<C> -> Result<V>, ready: nat -> bool, trace: seq<C>, t: nat)
    returns (f': SequenceFuture<C>, r: Option<Result<V>>, trace': seq<C>, t': nat)
    requires f.Valid()
    ensures f'.Valid()
    ensures r.None? ==> Poll(Remaining(u, f), env, ready, trace, t) == (Pending(Remaining(u, f')), trace', t')
    ensures r.Some? ==> Poll(Remaining(u, f), env, ready, trace, t) == (Done(r.value), trace', t')
  {
    hide Poll, Remaining;
    f', trace', t' := f, trace, t;
    while f'.next < |f'.commands|
      invariant f'.Valid() && f'.commands == f.commands
      invariant Poll(Remaining(u, f), env, ready, trace, t) == Poll(Remaining(u, f'), env, ready, trace', t')
      decreases |f'.commands| - f'.next
    {
      if !f'.waiting {
        Submits(u, f', env, ready, trace', t');
        trace' := trace' + [f'.commands[f'.next]];
        f' := f'.(waiting := true);
      }
      Answers(u, f', env, ready, trace', t');
      t' := t' + 1;
      if !ready(t' - 1) {
        return f', None, trace', t';
      }
      var answer := env(trace');
      if answer.Err? {
        return f', Some(answer), trace', t';
      }
      f' := f'.(next := f'.next + 1, waiting := false);
    }
    Finishes(u, f', env, ready, trace', t');
    return f', Some(Ok(u)), trace', t';
  }

  lemma Submits<C, V(!new)>(
    u: V, f: SequenceFuture<C>, env: seq<C> -> Result<V>, ready: nat -> bool, trace: seq<C>, t: nat)
    requires f.Valid() && !f.waiting && f.next < |f.commands|
    ensures Poll(Remaining(u, f), env, ready, trace, t)
         == Poll(Remaining(u, f.(waiting := true)), env, ready, trace + [f.commands[f.next]], t)
  {
    var c, rest := f.commands[f.next], f.commands[f.next + 1..];
    assert f.commands[f.next..][0] == c && f.commands[f.next..][1..] == rest;
    var first, raw: Op<C, V> := Defer(u, Raw(c)), Raw(c);
    assert Remaining<C, V>(u, f) == AndThen(first, Always(CommandSequence(u, rest)));
    hide CommandSequence, Remaining, Defer;
    PollDefer(u, raw, env, ready, trace, t);
    assert Built(raw) == [c];
  }

  lemma Answers<C, V(!new)>(
    u: V, f: SequenceFuture<C>, env: seq<C> -> Result<V>, ready: nat -> bool, trace: seq<C>, t: nat)
    requires f.Valid() && f.waiting
    ensures Poll(Remaining(u, f), env, ready, trace, t) ==
      if !ready(t) then (Pending(Remaining(u, f)), trace, t + 1)
      else if env(trace).Err? then (Done(env(trace)), trace, t + 1)
      else Poll(Remaining(u, f.(next := f.next + 1, waiting := false)), env, ready, trace, t + 1)
  {
    var rest := f.commands[f.next + 1..];
    NothingBuilt<C, V>(u, rest);
    assert trace + [] == trace;
    hide CommandSequence;
  }

  lemma Finishes<C, V(!new)>(
    u: V, f: SequenceFuture<C>, env: seq<C> -> Result<V>, ready: nat -> bool, trace: seq<C>, t: nat)
    requires f.Valid() && f.next == |f.commands|
    ensures Poll(Remaining(u, f), env, ready, trace, t) == (Done(Ok(u)), trace, t)
  {
  }
}
