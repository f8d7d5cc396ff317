/** IQ processing of src/rx/processing.rs: converting the current USB buffer piecewise into
    whatever output slices the caller brings, across reads and across buffers. */
module Processing {
  import opened Errors
  import opened Numbers
  import opened Baseband
  import opened Decimation
  import opened Converter
  import opened RxQueue

  /** Both transfer sizes are a whole number of conversion groups at every decimation. */
  lemma TransferIsWholeGroups(packing: bool, d: nat)
    requires SupportedDecimation(d)
    ensures d > 0 && ExpectedLen(packing) % (8 * d) == 0
  {
  }

  predicate GroupSize(m: nat)
    ensures GroupSize(m) ==> m > 0
  {
    m == 8 || m == 16 || m == 32 || m == 64 || m == 128 || m == 256 || m == 512
  }

  lemma WholeGroups(len: nat, m: nat)
    requires GroupSize(m) && len % m == 0
    ensures len == m * (len / m)
  {
  }

  lemma Cancel(m: nat, p: nat, q: nat)
    requires GroupSize(m) && m * q < m * p
    ensures q < p && (m * p - m * q) / m == p - q && m * p - m * q == m * (p - q)
  {
    assert m * p - m * q == m * (p - q);
    Multiple(m, p - q);
  }

  lemma Multiple(m: nat, k: int)
    requires GroupSize(m)
    ensures (m * k) % m == 0 && (m * k) / m == k
  {
  }

  lemma Advance(len: nat, off: nat, m: nat, g: nat)
    requires GroupSize(m) && len % m == 0 && off % m == 0 && off < len
    ensures (len - off) / m >= 1 && (len - off) == m * ((len - off) / m)
    ensures (off + m * g) % m == 0
  {
    hide GroupSize;
    var p, q := len / m, off / m;
    WholeGroups(len, m);
    WholeGroups(off, m);
    Cancel(m, p, q);
    Multiple(m, q + g);
    assert off + m * g == m * (q + g);
  }

  /** One round makes progress and stays on a group boundary, and what it leaves unconverted is
      left because the output is full. */
  lemma RoundProgress<F>(progress: ConversionProgress<F>, len: nat, off: nat, d: nat, room: nat)
    requires SupportedDecimation(d) && len % (8 * d) == 0 && off % (8 * d) == 0 && off < len && room > 0
    requires ProgressFor(progress, len - off, d, room)
    ensures var n := progress.consumedBytes;
      n > 0 && (off + n) % (8 * d) == 0 && off + n <= len && (off + n < len ==> progress.written == room)
    ensures progress.written > 0 && (progress.pending.Some? ==> progress.written == room)
  {
    Advance(len, off, 8 * d, Groups(len - off, d, room));
  }

  class IqProcessor<F> {
    const o: Arith<F>
    var converter: Float32IqConverter<F>
    var offset: nat
    var pending: Option<Complex<F>>
    /** Since the last reset: the bytes converted, and the samples handed to the caller. */
    ghost var consumed: seq<Byte>
    ghost var emitted: seq<Complex<F>>

    /** Chunking invariance. What has been handed out, with the one sample carried over, is
        exactly one whole-stream conversion of exactly the bytes consumed. */
    ghost predicate ValidFor(d: nat)
      reads this, converter, converter.firQueue, converter.delayLine, converter.decimationStages
      ensures ValidFor(d) ==> SupportedDecimation(d)
    {
      && SupportedDecimation(d)
      && converter.o == o
      && converter.Used(Stages(d))
      && |consumed| % 2 == 0
      && converter.codes == Words(consumed)
      && Pairs(Pipeline(o, Words(consumed), Stages(d))) == emitted + Carried(pending)
    }

    /** The part of the current buffer still to be converted is a positive number of whole groups. */
    ghost predicate Aligned(queue: Queue)
      requires SupportedDecimation(queue.settings.decimation)
      reads this`offset, queue
    {
      && (queue.current.None? ==> offset == 0)
      && (queue.current.Some? ==> offset < queue.currentLen && offset % (8 * queue.settings.decimation) == 0)
    }

    constructor (o: Arith<F>)
      ensures this.o == o && offset == 0 && pending == None
      ensures consumed == [] && emitted == []
      ensures forall d :: SupportedDecimation(d) ==> ValidFor(d)
      ensures fresh(converter) && fresh(converter.firQueue) && fresh(converter.delayLine)
      ensures forall s :: s in converter.decimationStages ==> fresh(s)
    {
      var c := new Float32IqConverter<F>(o);
      this.o := o;
      converter := c;
      offset, pending := 0, None;
      consumed, emitted := [], [];
      new;
      forall d | SupportedDecimation(d)
        ensures ValidFor(d)
      {
        FreshIsUsed(c, d);
      }
    }

    predicate HasPending()
      reads this`pending
    {
      pending.Some?
    }

    /** `reset`: everything back to the initial state, with a new converter. */
    method Reset()
      modifies this
      ensures offset == 0 && pending == None && consumed == [] && emitted == []
      ensures forall d :: SupportedDecimation(d) ==> ValidFor(d)
      ensures fresh(converter) && fresh(converter.firQueue) && fresh(converter.delayLine)
      ensures forall s :: s in converter.decimationStages ==> fresh(s)
    {
      var c := new Float32IqConverter<F>(o);
      converter := c;
      offset, pending := 0, None;
      consumed, emitted := [], [];
      forall d | SupportedDecimation(d)
        ensures ValidFor(d)
      {
        FreshIsUsed(c, d);
      }
    }

    /** The objects a processor owns. */
    ghost function Footprint(): (s: set<object>)
      reads this`converter
      ensures this in s
    {
      {this, converter, converter.firQueue, converter.delayLine} + (set s | s in converter.decimationStages)
    }

    /** One round of the conversion loop: as much of `raw` as fits into `out[written..]`. */
    method ConvertSome(raw: seq<Byte>, d: nat, out: array<Complex<F>>, written: nat)
      returns (progress: ConversionProgress<F>)
      requires ValidFor(d) && pending.None? && written < out.Length && out !in Footprint()
      modifies this`pending, this`consumed, this`emitted,
               converter, converter.firQueue, converter.delayLine, converter.decimationStages, out
      ensures ValidFor(d)
      ensures ProgressFor(progress, |raw|, d, out.Length - written)
      ensures consumed == old(consumed) + raw[..progress.consumedBytes]
      ensures emitted == old(emitted) + out[written..written + progress.written]
      ensures pending == progress.pending
      ensures out[..written] == old(out[..written])
      ensures out[written + progress.written..] == old(out[..])[written + progress.written..]
    {
      hide Float32IqConverter.Used, Pipeline, Pairs, Stages, SupportedDecimation, Words, Groups;
      progress := converter.ProcessU16leToF32iqSlice(raw, d, out, written);
      var n := progress.consumedBytes;
      assert n == 2 * (4 * d * Groups(|raw|, d, out.Length - written));
      WordsAppend(consumed, raw[..n]);
      ghost var had := emitted;
      consumed := consumed + raw[..n];
      emitted := emitted + out[written..written + progress.written];
      pending := progress.pending;
      assert had + [] + (out[written..written + progress.written] + Carried(pending)) == emitted + Carried(pending);
    }

    /** `process`: hands out the carried sample, then converts the current buffer until the output
        is full or the buffer is used up, in which case the buffer goes back to the endpoint. */
    method Process(queue: Queue, out: array<Complex<F>>) returns (r: Result<nat>)
      requires queue.State().Inv() && ValidFor(queue.settings.decimation) && Aligned(queue)
      requires out !in Footprint()
      modifies this`offset, this`pending, this`consumed, this`emitted,
               converter, converter.firQueue, converter.delayLine, converter.decimationStages, queue, out
      ensures r.Ok? && r.value <= out.Length
      ensures queue.settings == old(queue.settings) && ValidFor(queue.settings.decimation) && Aligned(queue)
      ensures queue.State() ==
        if queue.current == old(queue.current) then old(queue.State()) else old(queue.State()).ReleaseCurrent()
      ensures emitted == old(emitted) + out[..r.value]
      ensures out[r.value..] == old(out[..])[r.value..]
      ensures consumed == old(consumed) + Taken(old(queue.current), old(queue.currentLen), old(offset),
                                                if queue.current.Some? then offset else old(queue.currentLen))
      ensures r.value == out.Length || queue.current.None?
      ensures queue.current.Some? ==> old(offset) <= offset
      ensures out.Length > 0 && (old(pending).Some? || old(queue.current).Some?) ==> r.value > 0
    {
      hide Float32IqConverter.Used, Pipeline, Pairs, Stages, SupportedDecimation, Words, Groups, Carried;
      if out.Length == 0 {
        return Ok(0);
      }
      var written := TakePending(out, queue.settings.decimation);
      written := ConvertBuffer(queue, out, written);
      return Ok(written);
    }

    /** The sample carried over from an earlier read goes first. */
    method TakePending(out: array<Complex<F>>, ghost d: nat) returns (written: nat)
      requires ValidFor(d) && out.Length > 0 && out !in Footprint()
      modifies this`pending, this`emitted, out
      ensures ValidFor(d) && pending.None?
      ensures written == if old(pending).Some? then 1 else 0
      ensures emitted == old(emitted) + out[..written] && out[written..] == old(out[..])[written..]
    {
      hide Float32IqConverter.Used, Pipeline, Pairs, Stages, SupportedDecimation, Words;
      written := 0;
      assert emitted + Carried<F>(None) == emitted;
      if pending.Some? {
        out[0] := pending.value;
        emitted := emitted + out[..1];
        assert emitted + Carried<F>(None) == old(emitted) + Carried(pending);
        pending := None;
        written := 1;
      }
    }

    /** The body of the conversion loop of `process`. The branch for a buffer that ends in an
        incomplete group, which the source reports as a protocol error, cannot be reached. */
    method Round(queue: Queue, out: array<Complex<F>>, written: nat) returns (next: nat, usedUp: bool)
      requires queue.State().Inv() && ValidFor(queue.settings.decimation) && Aligned(queue)
      requires out !in Footprint() && pending.None? && written < out.Length && queue.current.Some?
      modifies this`offset, this`pending, this`consumed, this`emitted,
               converter, converter.firQueue, converter.delayLine, converter.decimationStages, queue, out
      ensures written < next <= out.Length
      ensures ValidFor(old(queue.settings.decimation))
      ensures usedUp ==> offset == 0 && queue.State() == old(queue.State()).ReleaseCurrent()
      ensures !usedUp ==>
        next == out.Length && old(offset) <= offset && queue.State() == old(queue.State()) && Aligned(queue)
      ensures emitted == old(emitted) + out[written..next]
      ensures out[..written] == old(out[..written]) && out[next..] == old(out[..])[next..]
      ensures consumed == old(consumed) + Taken(old(queue.current), old(queue.currentLen), old(offset),
                                                if usedUp then old(queue.currentLen) else offset)
    {
      hide Float32IqConverter.Used, Pipeline, Pairs, Stages, SupportedDecimation, Words, Groups, Carried, ProgressFor;
      hide QueueState.Epochs, QueueState.Counts, QueueState.ReleaseCurrent;
      var d := queue.settings.decimation;
      var raw := queue.current.value.bytes[offset..queue.currentLen];
      TransferIsWholeGroups(queue.settings.packing, d);
      var progress := ConvertSome(raw, d, out, written);
      RoundProgress(progress, queue.currentLen, offset, d, out.Length - written);
      assert raw[..progress.consumedBytes]
          == queue.current.value.bytes[offset..offset + progress.consumedBytes];
      offset := offset + progress.consumedBytes;
      next := written + progress.written;
      usedUp := offset == queue.currentLen;
      if usedUp {
        queue.ReleaseCurrent();
        offset := 0;
      } else if progress.consumedBytes == 0 {
        assert false;
      }
    }

    /** The conversion loop of `process`. */
    method ConvertBuffer(queue: Queue, out: array<Complex<F>>, start: nat) returns (written: nat)
      requires queue.State().Inv() && ValidFor(queue.settings.decimation) && Aligned(queue)
      requires out !in Footprint() && pending.None? && start <= out.Length
      modifies this`offset, this`pending, this`consumed, this`emitted,
               converter, converter.firQueue, converter.delayLine, converter.decimationStages, queue, out
      ensures start <= written <= out.Length
      ensures queue.settings == old(queue.settings) && ValidFor(queue.settings.decimation) && Aligned(queue)
      ensures queue.State() ==
        if queue.current == old(queue.current) then old(queue.State()) else old(queue.State()).ReleaseCurrent()
      ensures emitted == old(emitted) + out[start..written]
      ensures out[..start] == old(out[..start]) && out[written..] == old(out[..])[written..]
      ensures consumed == old(consumed) + Taken(old(queue.current), old(queue.currentLen), old(offset),
                                                if queue.current.Some? then offset else old(queue.currentLen))
      ensures written == out.Length || queue.current.None?
      ensures queue.current.Some? ==> old(offset) <= offset
      ensures start < out.Length && old(queue.current).Some? ==> written > start
    {
      hide ValidFor, SupportedDecimation, QueueState.Inv;
      written := start;
      while written < out.Length
        invariant start <= written <= out.Length && (written == start || written == out.Length)
        invariant queue.State() == old(queue.State()) && ValidFor(queue.settings.decimation) && Aligned(queue)
        invariant old(offset) <= offset
        invariant written == start ==> offset == old(offset) && pending.None? && consumed == old(consumed)
        invariant written > start ==> queue.current.Some?
        invariant emitted == old(emitted) + out[start..written]
        invariant out[..start] == old(out[..start]) && out[written..] == old(out[..])[written..]
        invariant consumed == old(consumed) + Taken(queue.current, queue.currentLen, old(offset), offset)
        decreases out.Length - written
      {
        if queue.current.None? {
          break;
        }
        var usedUp;
        written, usedUp := Round(queue, out, written);
        if usedUp {
          break;
        }
      }
    }
  }

  /** Whatever the buffers, slice sizes and calls were: if one stream has consumed a prefix of what
      another has, its samples are a prefix of the other's, and equal bytes give equal samples. */
  lemma ChunkingInvariance<F>(p: IqProcessor<F>, q: IqProcessor<F>, d: nat)
    requires p.o == q.o && p.ValidFor(d) && q.ValidFor(d) && p.consumed <= q.consumed
    ensures p.emitted + Carried(p.pending) <= q.emitted + Carried(q.pending)
    ensures p.consumed == q.consumed ==> p.emitted + Carried(p.pending) == q.emitted + Carried(q.pending)
  {
    hide Float32IqConverter.Used, Pipeline, Stages, SupportedDecimation, Words;
    var rest := q.consumed[|p.consumed|..];
    assert q.consumed == p.consumed + rest;
    WordsAppend(p.consumed, rest);
    PipelinePrefix(p.o, Words(p.consumed), Words(rest), Stages(d));
    PairsPrefix(Pipeline(p.o, Words(p.consumed), Stages(d)), Pipeline(p.o, Words(q.consumed), Stages(d)));
  }

  lemma PairsPrefix<F>(z: seq<F>, z': seq<F>)
    requires z <= z'
    ensures Pairs(z) <= Pairs(z')
  {
  }

  /** The bytes of a current buffer between two offsets. */
  ghost function Taken(current: Option<Buffer>, len: nat, lo: nat, hi: nat): seq<Byte> {
    if current.Some? && lo <= hi <= len <= |current.value.bytes| then current.value.bytes[lo..hi] else []
  }
}
