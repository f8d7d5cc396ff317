/** The half-band decimate-by-2 stage of src/converter.rs: a ring-buffer object, and the pure
    function of its whole input history that it computes. Values are interleaved I/Q. */
module Decimation {
  import opened Numbers
  import opened Rings

  datatype Filter = Hb33 | Hb17 {
    /** Ring slots, in complex samples. */
    function BufSize(): nat { if Hb33? then 32 else 16 }
    /** Ring slots, in interleaved values. */
    function Ring(): nat { 2 * BufSize() }
    /** The next slot: `(idx + 1) & 31` or `(idx + 1) & 15`. */
    function Next(idx: nat): (n: nat)
      requires idx < BufSize()
      ensures n == if idx + 1 == BufSize() then 0 else idx + 1
    {
      if Hb33? then (idx + 1) % 32 else (idx + 1) % 16
    }
  }

  /** One component of `acc_hb33`; `s` is the mirrored ring from the base slot on. */
  function Acc33<F>(o: Arith<F>, s: seq<F>, c: nat): F
    requires |s| >= 64 && c < 2
  {
    o.Add(o.Add(o.Add(o.Add(o.Add(o.Add(o.Add(o.Add(
      o.Mul(o.Hb33(1), o.Add(s[2 + c], s[62 + c])),
      o.Mul(o.Hb33(3), o.Add(s[6 + c], s[58 + c]))),
      o.Mul(o.Hb33(5), o.Add(s[10 + c], s[54 + c]))),
      o.Mul(o.Hb33(7), o.Add(s[14 + c], s[50 + c]))),
      o.Mul(o.Hb33(9), o.Add(s[18 + c], s[46 + c]))),
      o.Mul(o.Hb33(11), o.Add(s[22 + c], s[42 + c]))),
      o.Mul(o.Hb33(13), o.Add(s[26 + c], s[38 + c]))),
      o.Mul(o.Hb33(15), o.Add(s[30 + c], s[34 + c]))),
      o.Mul(o.Hb33(16), s[32 + c]))
  }

  /** One component of `acc_hb17`. */
  function Acc17<F>(o: Arith<F>, s: seq<F>, c: nat): F
    requires |s| >= 32 && c < 2
  {
    o.Add(o.Add(o.Add(o.Add(
      o.Mul(o.Hb17(1), o.Add(s[2 + c], s[30 + c])),
      o.Mul(o.Hb17(3), o.Add(s[6 + c], s[26 + c]))),
      o.Mul(o.Hb17(5), o.Add(s[10 + c], s[22 + c]))),
      o.Mul(o.Hb17(7), o.Add(s[14 + c], s[18 + c]))),
      o.Mul(o.Hb17(8), s[16 + c]))
  }

  function Acc<F>(o: Arith<F>, f: Filter, s: seq<F>, c: nat): F
    requires |s| >= f.Ring() && c < 2
  {
    if f.Hb33? then Acc33(o, s, c) else Acc17(o, s, c)
  }

  // ---- What a stage computes, as a function of its input history ----

  /** The samples an accumulation sees whose base slot is `e` values behind the newest one
      (`e` is 6 for the first output of a group and 2 for the second). All of them lie one ring
      length in the past, except the `e` values stored since the base slot was written: those
      have already overwritten the slots of the oldest taps. */
  function Window<F>(o: Arith<F>, f: Filter, h: seq<F>, e: nat): (w: seq<F>)
    ensures |w| == f.Ring()
  {
    seq(f.Ring(), r => At(o.zero, h, |h| - e + r - (if r < e then 0 else f.Ring())))
  }

  /** The two complex outputs emitted after the last four input samples of `h`. */
  function Group<F>(o: Arith<F>, f: Filter, h: seq<F>): (r: seq<F>)
    ensures |r| == 4
  {
    var first := Window(o, f, h, 6);
    var second := Window(o, f, h, 2);
    [Acc(o, f, first, 0), Acc(o, f, first, 1), Acc(o, f, second, 0), Acc(o, f, second, 1)]
  }

  /** Everything a stage has emitted after the input history `h`. */
  function StageOut<F>(o: Arith<F>, f: Filter, h: seq<F>): (z: seq<F>)
    requires |h| % 8 == 0
    ensures |z| == |h| / 2
  {
    if |h| == 0 then [] else StageOut(o, f, h[..|h| - 8]) + Group(o, f, h)
  }

  lemma StageOutStep<F>(o: Arith<F>, f: Filter, h: seq<F>, src: seq<F>)
    requires |h| % 8 == 0 && |src| == 8
    ensures StageOut(o, f, h + src) == StageOut(o, f, h) + Group(o, f, h + src)
  {
    hide Group;
    assert (h + src)[..|h + src| - 8] == h;
  }

  /** Causality: outputs already emitted never change when more input arrives. */
  lemma {:induction false} StageOutPrefix<F>(o: Arith<F>, f: Filter, h: seq<F>, t: seq<F>)
    requires |h| % 8 == |t| % 8 == 0
    ensures StageOut(o, f, h) <= StageOut(o, f, h + t)
    decreases |t|
  {
    hide Group;
    if |t| == 0 {
      assert h + t == h;
    } else {
      var p := t[..|t| - 8];
      StageOutPrefix(o, f, h, p);
      assert (h + t)[..|h + t| - 8] == h + p;
      assert StageOut(o, f, h + t) == StageOut(o, f, h + p) + Group(o, f, h + t);
    }
  }

  /** Closed form: the g-th group of outputs depends on the first g + 1 groups of inputs only. */
  lemma {:induction false} StageOutAt<F>(o: Arith<F>, f: Filter, h: seq<F>, g: nat)
    requires |h| % 8 == 0 && 8 * g + 8 <= |h|
    ensures StageOut(o, f, h)[4 * g..4 * g + 4] == Group(o, f, h[..8 * g + 8])
  {
    hide Group;
    var p := h[..8 * g + 8];
    assert StageOut(o, f, p) == StageOut(o, f, p[..8 * g]) + Group(o, f, p);
    StageOutPrefix(o, f, p, h[8 * g + 8..]);
    assert h == p + h[8 * g + 8..];
  }

  /** The slice an accumulation reads is the spec's window. */
  lemma ReadsWindow<F>(o: Arith<F>, queue: seq<F>, f: Filter, idx: nat, base: nat, e: nat, h: seq<F>)
    requires idx < f.BufSize() && base < f.BufSize() && idx % 4 == 0
    requires e == 6 || e == 2
    requires base == (if idx == 0 then f.BufSize() else idx) - e / 2
    requires Mirrors(queue, f.Ring(), 2 * idx, o.zero, h)
    ensures |queue| == 2 * f.Ring()
    ensures queue[2 * base..2 * base + f.Ring()] == Window(o, f, h, e)
  {
    var size := f.Ring();
    var w := Window(o, f, h, e);
    forall r | 0 <= r < size
      ensures |queue| == 2 * f.Ring() && queue[2 * base + r] == w[r]
    {
      assert Newest(|h|, 2 * idx, size, 2 * base + r) == |h| - e + r - (if r < e then 0 else size);
    }
  }

  lemma EightValues<F>(h: seq<F>, src: seq<F>)
    requires |src| == 8
    ensures h + [src[0], src[1]] + [src[2], src[3]] + [src[4], src[5]] + [src[6], src[7]] == h + src
  {
  }

  lemma FirIndexInRange<F>(queue: seq<F>, f: Filter, idx: nat, zero: F, h: seq<F>)
    requires Mirrors(queue, f.Ring(), 2 * idx, zero, h)
    ensures idx < f.BufSize()
    ensures idx % 4 == 0 ==> idx + 4 <= f.BufSize()
  {
  }

  // ---- Handing samples to the caller ----

  /** End of the part of `out[lo..hi]` that holds samples after `g` groups of two. */
  function FilledTo(lo: nat, hi: nat, g: nat): nat {
    if lo + 2 * g <= hi then lo + 2 * g else hi
  }

  lemma Onward<T>(h: seq<T>, src: seq<T>, n: nat)
    requires n + 8 <= |src|
    ensures h + src[..n] + src[n..n + 8] == h + src[..n + 8]
  {
  }

  lemma Regroup<T>(base: seq<T>, had: seq<T>, four: seq<T>)
    ensures base + (had + []) + four == base + (had + four)
  {
  }

  /** The `g`-th group goes to the `g`-th pair of places in `out[lo..hi]`; when only one place is
      left, its second sample is returned instead. */
  method Deliver<F>(four: seq<F>, out: array<Complex<F>>, lo: nat, hi: nat, g: nat)
    returns (pending: Option<Complex<F>>)
    requires |four| == 4 && hi <= out.Length && lo + 2 * g < hi
    modifies out
    ensures pending.Some? <==> lo + 2 * g + 2 > hi
    ensures out[lo..FilledTo(lo, hi, g + 1)] + Carried(pending) == old(out[lo..lo + 2 * g]) + Pairs(four)
    ensures out[..lo] == old(out[..lo]) && out[hi..] == old(out[hi..])
  {
    pending := None;
    if lo + 2 * g + 2 <= hi {
      out[lo + 2 * g] := Complex(four[0], four[1]);
      out[lo + 2 * g + 1] := Complex(four[2], four[3]);
    } else {
      out[hi - 1] := Complex(four[0], four[1]);
      pending := Some(Complex(four[2], four[3]));
    }
  }

  // ---- The stage object ----

  class DecimationStage<F> {
    const o: Arith<F>
    const filter: Filter
    var queueIq: seq<F>
    var firIndex: nat
    /** Every value consumed since construction. */
    ghost var hist: seq<F>

    /** Four-sample phase: the write index only ever rests on a multiple of four. */
    ghost predicate Valid()
      reads this
      ensures Valid() ==> |hist| % 8 == 0
    {
      && firIndex % 4 == 0
      && |hist| % 8 == 0
      && Mirrors(queueIq, filter.Ring(), 2 * firIndex, o.zero, hist)
    }

    constructor (o: Arith<F>, stageNum: nat)
      ensures Valid() && hist == [] && this.o == o
      ensures filter == StageFilter(stageNum)
    {
      this.o := o;
      var f := StageFilter(stageNum);
      filter := f;
      queueIq := seq(f.BufSize() * 2 * 2, _ => o.zero);
      firIndex := 0;
      hist := [];
    }

    /** `store_iq`: both copies of one ring slot. */
    method StoreIq(idx: nat, i: F, q: F, ghost h: seq<F>)
      requires idx < filter.BufSize()
      requires Mirrors(queueIq, filter.Ring(), 2 * idx, o.zero, h)
      modifies this`queueIq
      ensures Mirrors(queueIq, filter.Ring(), 2 * filter.Next(idx), o.zero, h + [i, q])
    {
      var bufSize := filter.BufSize();
      ghost var q0 := queueIq;
      queueIq := queueIq[idx * 2 := i];
      queueIq := queueIq[idx * 2 + 1 := q];
      queueIq := queueIq[(idx + bufSize) * 2 := i];
      queueIq := queueIq[(idx + bufSize) * 2 + 1 := q];
      ghost var size := filter.Ring();
      ghost var q1 := q0[2 * idx := i][2 * idx + size := i];
      MirrorsPush(q0, q1, size, 2 * idx, 2 * idx + 1, o.zero, h, i);
      ghost var next := if 2 * idx + 2 == size then 0 else 2 * idx + 2;
      assert queueIq == q1[2 * idx + 1 := q][2 * idx + 1 + size := q];
      MirrorsPush(q1, queueIq, size, 2 * idx + 1, next, o.zero, h + [i], q);
      assert h + [i] + [q] == h + [i, q];
    }

    /** `acc_hb33` and `acc_hb17`: the slice that starts at the base slot. The index is evaluated in
        unsigned arithmetic, from left to right, so slot 0 would underflow. */
    method AccHb(idx: nat) returns (i: F, q: F)
      requires 0 < idx < filter.BufSize() && |queueIq| == 2 * filter.Ring()
      ensures i == Acc(o, filter, queueIq[2 * idx..2 * idx + filter.Ring()], 0)
      ensures q == Acc(o, filter, queueIq[2 * idx..2 * idx + filter.Ring()], 1)
    {
      var size := filter.BufSize();
      var low: nat := idx + size - (size + 1);
      var base := (low + 1) * 2;
      var s := queueIq[base..base + filter.Ring()];
      i := Acc(o, filter, s, 0);
      q := Acc(o, filter, s, 1);
    }

    /** The four stores of one group; `idx0` and `idx1` are the slots of the second and fourth. */
    method StoreFour(src: seq<F>) returns (idx: nat, idx0: nat, idx1: nat)
      requires |src| == 8 && firIndex % 4 == 0 && Mirrors(queueIq, filter.Ring(), 2 * firIndex, o.zero, hist)
      modifies this`queueIq
      ensures idx == (if firIndex + 4 == filter.BufSize() then 0 else firIndex + 4)
      ensures idx0 == firIndex + 1 && idx1 == firIndex + 3 && 0 < idx0 < idx1 < filter.BufSize()
      ensures Mirrors(queueIq, filter.Ring(), 2 * idx, o.zero, hist + src)
    {
      hide Mirrors, Filter.Next, Filter.BufSize, Filter.Ring;
      FirIndexInRange(queueIq, filter, firIndex, o.zero, hist);
      idx := firIndex;
      StoreIq(idx, src[0], src[1], hist);
      idx := filter.Next(idx);
      StoreIq(idx, src[2], src[3], hist + [src[0], src[1]]);
      idx0 := idx;
      idx := filter.Next(idx);
      StoreIq(idx, src[4], src[5], hist + [src[0], src[1]] + [src[2], src[3]]);
      idx := filter.Next(idx);
      StoreIq(idx, src[6], src[7], hist + [src[0], src[1]] + [src[2], src[3]] + [src[4], src[5]]);
      idx1 := idx;
      idx := filter.Next(idx);
      EightValues(hist, src);
    }

    /** One pass of the loop body of `process_hb33` / `process_hb17`: four stores, and only then
        both accumulations. */
    method StepGroup(src: seq<F>) returns (emitted: seq<F>)
      requires Valid() && |src| == 8
      modifies this
      ensures Valid() && hist == old(hist) + src
      ensures emitted == Group(o, filter, hist)
    {
      hide Mirrors, Acc, Window;
      assert firIndex < filter.BufSize() by { FirIndexInRange(queueIq, filter, firIndex, o.zero, hist); }
      var idx, idx0, idx1 := StoreFour(src);
      hist := hist + src;
      ReadsWindow(o, queueIq, filter, idx, idx0, 6, hist);
      ReadsWindow(o, queueIq, filter, idx, idx1, 2, hist);
      var i0, q0 := AccHb(idx0);
      var i1, q1 := AccHb(idx1);
      firIndex := idx;
      emitted := [i0, q0, i1, q1];
    }

    /** `process`: every whole group of four samples, appended to `dest`. */
    method Process(src: seq<F>, dest: seq<F>) returns (dest': seq<F>)
      requires Valid()
      modifies this
      ensures Valid() && hist == old(hist) + src[..|src| / 8 * 8]
      ensures dest <= dest'
      ensures StageOut(o, filter, hist) == StageOut(o, filter, old(hist)) + dest'[|dest|..]
    {
      hide Valid, Group, StageOut;
      dest' := dest;
      var pairs := |src| / 2 / 4 * 4;
      assert pairs * 2 == |src| / 8 * 8;
      var i := 0;
      ghost var z: seq<F> := [];
      ghost var base := StageOut(o, filter, hist);
      while i < pairs
        invariant 0 <= i <= pairs && i % 4 == 0
        invariant Valid() && hist == old(hist) + src[..2 * i]
        invariant dest' == dest + z
        invariant StageOut(o, filter, hist) == base + z
      {
        ghost var before := hist;
        var four := StepGroup(src[2 * i..2 * i + 8]);
        StageOutStep(o, filter, before, src[2 * i..2 * i + 8]);
        Onward(old(hist), src, 2 * i);
        dest' := dest' + four;
        z := z + four;
        i := i + 4;
      }
      assert dest'[|dest|..] == z;
    }

    /** One group into its places of `out[lo..hi]`, after everything emitted before it. */
    method StepGroupToComplex(src: seq<F>, out: array<Complex<F>>, lo: nat, hi: nat, g: nat,
        ghost base: seq<Complex<F>>)
      returns (pending: Option<Complex<F>>)
      requires Valid() && |src| == 8
      requires hi <= out.Length && lo + 2 * g < hi
      requires Pairs(StageOut(o, filter, hist)) == base + (out[lo..lo + 2 * g] + [])
      modifies this, out
      ensures Valid() && hist == old(hist) + src
      ensures pending.Some? <==> lo + 2 * g + 2 > hi
      ensures Pairs(StageOut(o, filter, hist)) == base + (out[lo..FilledTo(lo, hi, g + 1)] + Carried(pending))
      ensures out[..lo] == old(out[..lo]) && out[hi..] == old(out[hi..])
    {
      hide Valid, Group, StageOut, Pairs, Carried, FilledTo;
      ghost var before := hist;
      var four := StepGroup(src);
      StageOutStep(o, filter, before, src);
      PairsAppend(StageOut(o, filter, before), four);
      ghost var had := out[lo..lo + 2 * g];
      pending := Deliver(four, out, lo, hi, g);
      Regroup(base, had, Pairs(four));
    }

    /** `process_to_complex`: the final stage writes straight into `out[lo..hi]`. When that slice
        has odd length, the second sample of the last group has no room and is handed back. */
    method ProcessToComplex(src: seq<F>, out: array<Complex<F>>, lo: nat, hi: nat)
      returns (pending: Option<Complex<F>>)
      requires Valid() && |src| % 8 == 0
      requires lo <= hi <= out.Length && (hi - lo + 1) / 2 == |src| / 8
      modifies this, out
      ensures Valid() && hist == old(hist) + src
      ensures pending.Some? <==> (hi - lo) % 2 == 1
      ensures Pairs(StageOut(o, filter, hist))
           == Pairs(StageOut(o, filter, old(hist))) + (out[lo..hi] + Carried(pending))
      ensures out[..lo] == old(out[..lo]) && out[hi..] == old(out[hi..])
    {
      hide Valid, Group, StageOut, Pairs;
      pending := None;
      ghost var base := Pairs(StageOut(o, filter, hist));
      var groups := |src| / 8;
      assert 2 * groups == hi - lo || 2 * groups == hi - lo + 1;
      var g := 0;
      while g < groups
        invariant 0 <= g <= groups
        invariant Valid() && hist == old(hist) + src[..8 * g]
        invariant pending.Some? <==> lo + 2 * g > hi
        invariant Pairs(StageOut(o, filter, hist)) == base + (out[lo..FilledTo(lo, hi, g)] + Carried(pending))
        invariant out[..lo] == old(out[..lo]) && out[hi..] == old(out[hi..])
      {
        pending := StepGroupToComplex(src[8 * g..8 * g + 8], out, lo, hi, g, base);
        Onward(old(hist), src, 8 * g);
        g := g + 1;
      }
      assert src[..8 * g] == src;
    }
  }

  /** The first three stages use the 33-tap kernel, the others the 17-tap one. */
  function StageFilter(stageNum: nat): Filter {
    if stageNum < 3 then Hb33 else Hb17
  }
}
