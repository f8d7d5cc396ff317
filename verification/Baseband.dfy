/** What the front end of the converter computes, as functions of every ADC code received since
    reset: DC removal, the folded 24-tap polyphase filter for I, and the 12-sample delay for Q. */
module Baseband {
  import opened Numbers
  import opened Rings

  type Byte = b: int | 0 <= b < 256
  /** A 16-bit little-endian USB word. */
  type Word = w: int | 0 <= w < 65536

  const FIR_HISTORY_SIZE: nat := 512
  const Q_DELAY_LEN: nat := 12

  function Words(raw: seq<Byte>): (s: seq<Word>)
    ensures |s| == |raw| / 2
  {
    seq(|raw| / 2, i requires 0 <= i < |raw| / 2 => (raw[2 * i] as int) + 256 * (raw[2 * i + 1] as int))
  }

  lemma WordsAppend(a: seq<Byte>, b: seq<Byte>)
    requires |a| % 2 == 0
    ensures Words(a + b) == Words(a) + Words(b)
  {
  }

  /** The bytes that carry these words: of each word the low byte first. */
  function Encode(s: seq<Word>): (raw: seq<Byte>)
    ensures |raw| == 2 * |s|
  {
    if |s| == 0 then [] else [s[0] % 256, s[0] / 256] + Encode(s[1..])
  }

  /** Decoding is the inverse of encoding, on words and, for whole words, on bytes. */
  lemma {:induction false} WordsOfEncode(s: seq<Word>)
    ensures Words(Encode(s)) == s
    decreases |s|
  {
    if |s| > 0 {
      WordsOfEncode(s[1..]);
      WordsAppend([s[0] % 256, s[0] / 256], Encode(s[1..]));
      assert Words([s[0] % 256, s[0] / 256]) == [s[0]];
    }
  }

  lemma {:induction false} EncodeOfWords(raw: seq<Byte>)
    requires |raw| % 2 == 0
    ensures Encode(Words(raw)) == raw
    decreases |raw|
  {
    if |raw| > 0 {
      EncodeOfWords(raw[2..]);
      WordsAppend(raw[..2], raw[2..]);
      assert raw == raw[..2] + raw[2..];
      assert Words(raw)[1..] == Words(raw[2..]);
    }
  }

  /** `adc_to_float_12`: the low twelve bits, scaled to [-1, 1). */
  function AdcToFloat12<F>(o: Arith<F>, w: Word): F {
    o.Sub(o.Div(o.Code(w % 4096), o.midpoint), o.one)
  }

  /** The running average after the codes `s`. */
  function Avg<F>(o: Arith<F>, s: seq<Word>): F {
    if |s| == 0 then o.zero
    else var a := Avg(o, s[..|s| - 1]); o.Add(a, o.Mul(o.alpha, o.Sub(AdcToFloat12(o, s[|s| - 1]), a)))
  }

  /** The DC-removed value of the n-th code. */
  function Residual<F>(o: Arith<F>, s: seq<Word>, n: nat): F
    requires n < |s|
  {
    o.Sub(AdcToFloat12(o, s[n]), Avg(o, s[..n]))
  }

  /** Values pushed into the filter: the even residuals with alternating sign. */
  function FirIn<F>(o: Arith<F>, s: seq<Word>): (v: seq<F>)
    requires |s| % 4 == 0
    ensures |v| == |s| / 2
  {
    if |s| == 0 then []
    else
      var n := |s| - 4;
      FirIn(o, s[..n]) + [o.Neg(Residual(o, s, n)), Residual(o, s, n + 2)]
  }

  /** Values pushed into the delay line: the odd residuals, halved, with alternating sign. */
  function DelayIn<F>(o: Arith<F>, s: seq<Word>): (v: seq<F>)
    requires |s| % 4 == 0
    ensures |v| == |s| / 2
  {
    if |s| == 0 then []
    else
      var n := |s| - 4;
      DelayIn(o, s[..n]) + [o.Mul(o.Neg(Residual(o, s, n + 1)), o.half), o.Mul(Residual(o, s, n + 3), o.half)]
  }

  /** The first `i` rounds of the folded accumulation over a 24-value window, oldest first. */
  function FirAcc<F>(o: Arith<F>, w: seq<F>, i: nat): F
    requires |w| == 24 && i <= 12
  {
    if i == 0 then o.zero
    else o.Add(FirAcc(o, w, i - 1), o.Mul(o.Hb47(2 * (i - 1)), o.Add(w[i - 1], w[24 - i])))
  }

  /** The newest 24 of the first `m + 1` values. */
  function FirWindow<F>(o: Arith<F>, v: seq<F>, m: nat): (w: seq<F>)
    ensures |w| == 24
  {
    seq(24, i => At(o.zero, v, m - 23 + i))
  }

  /** The m-th undecimated output. */
  function OutI<F>(o: Arith<F>, v: seq<F>, m: nat): F { FirAcc(o, FirWindow(o, v, m), 12) }
  function OutQ<F>(o: Arith<F>, d: seq<F>, m: nat): F { At(o.zero, d, m - Q_DELAY_LEN) }

  /** The four values emitted for the last four codes of `s`. */
  function Chunk<F>(o: Arith<F>, s: seq<Word>): (r: seq<F>)
    requires |s| % 4 == 0 && |s| > 0
    ensures |r| == 4
  {
    var m := |s| / 2 - 2;
    [OutI(o, FirIn(o, s), m), OutQ(o, DelayIn(o, s), m), OutI(o, FirIn(o, s), m + 1), OutQ(o, DelayIn(o, s), m + 1)]
  }

  /** All interleaved I/Q values the front end emits for the codes `s`. */
  function BasebandOut<F>(o: Arith<F>, s: seq<Word>): (z: seq<F>)
    requires |s| % 4 == 0
    ensures |z| == |s|
  {
    if |s| == 0 then [] else BasebandOut(o, s[..|s| - 4]) + Chunk(o, s)
  }

  lemma BasebandStep<F>(o: Arith<F>, s: seq<Word>, c: seq<Word>)
    requires |s| % 4 == 0 && |c| == 4
    ensures BasebandOut(o, s + c) == BasebandOut(o, s) + Chunk(o, s + c)
  {
    hide Chunk;
    assert (s + c)[..|s + c| - 4] == s;
  }

  /** Causality of the front end. */
  lemma {:induction false} BasebandPrefix<F>(o: Arith<F>, s: seq<Word>, t: seq<Word>)
    requires |s| % 4 == |t| % 4 == 0
    ensures BasebandOut(o, s) <= BasebandOut(o, s + t)
    decreases |t|
  {
    hide Chunk;
    if |t| == 0 {
      assert s + t == s;
    } else {
      var p := t[..|t| - 4];
      BasebandPrefix(o, s, p);
      assert (s + t)[..|s + t| - 4] == s + p;
    }
  }

  /** One step of the DC tracker. */
  lemma AvgAt<F>(o: Arith<F>, s: seq<Word>, n: nat)
    requires n < |s|
    ensures Avg(o, s[..n + 1]) == o.Add(Avg(o, s[..n]), o.Mul(o.alpha, Residual(o, s, n)))
  {
    hide AdcToFloat12;
    assert s[..n + 1][..n] == s[..n];
  }

  lemma FirInLast<F>(o: Arith<F>, s: seq<Word>)
    requires |s| % 4 == 0 && |s| > 0
    ensures var n := |s| - 4;
      && FirIn(o, s) == FirIn(o, s[..n]) + [o.Neg(Residual(o, s, n))] + [Residual(o, s, n + 2)]
      && DelayIn(o, s) == DelayIn(o, s[..n])
                      + [o.Mul(o.Neg(Residual(o, s, n + 1)), o.half)] + [o.Mul(Residual(o, s, n + 3), o.half)]
  {
    hide Residual, Arith.Mul, Arith.Neg;
  }

  /** Four more codes: two more values each for the filter and the delay line. */
  lemma FrontEndStep<F>(o: Arith<F>, s: seq<Word>, w: seq<Word>)
    requires |s| % 4 == 0 && |w| == 4
    ensures FirIn(o, s + w) == FirIn(o, s) + [o.Neg(Residual(o, s + w, |s|))] + [Residual(o, s + w, |s| + 2)]
    ensures DelayIn(o, s + w) == DelayIn(o, s)
                               + [o.Mul(o.Neg(Residual(o, s + w, |s| + 1)), o.half)]
                               + [o.Mul(Residual(o, s + w, |s| + 3), o.half)]
  {
    hide Residual, FirIn, DelayIn, Arith.Mul, Arith.Neg;
    assert (s + w)[..|s + w| - 4] == s;
    FirInLast(o, s + w);
  }

  /** The residuals and the average that `convert_adc_chunk` computes in sequence. */
  lemma TrackerStep<F>(o: Arith<F>, s: seq<Word>, w: seq<Word>, x0: F, x1: F, x2: F, x3: F, a1: F, a2: F, a3: F, a4: F)
    requires |w| == 4
    requires x0 == o.Sub(AdcToFloat12(o, w[0]), Avg(o, s)) && a1 == o.Add(Avg(o, s), o.Mul(o.alpha, x0))
    requires x1 == o.Sub(AdcToFloat12(o, w[1]), a1) && a2 == o.Add(a1, o.Mul(o.alpha, x1))
    requires x2 == o.Sub(AdcToFloat12(o, w[2]), a2) && a3 == o.Add(a2, o.Mul(o.alpha, x2))
    requires x3 == o.Sub(AdcToFloat12(o, w[3]), a3) && a4 == o.Add(a3, o.Mul(o.alpha, x3))
    ensures x0 == Residual(o, s + w, |s|) && x1 == Residual(o, s + w, |s| + 1)
    ensures x2 == Residual(o, s + w, |s| + 2) && x3 == Residual(o, s + w, |s| + 3)
    ensures a4 == Avg(o, s + w)
  {
    hide Avg, AdcToFloat12, Arith.Add, Arith.Sub, Arith.Mul;
    var t, n := s + w, |s|;
    assert t[..n] == s && t[..n + 4] == t;
    AvgAt(o, t, n);
    AvgAt(o, t, n + 1);
    AvgAt(o, t, n + 2);
    AvgAt(o, t, n + 3);
  }

  /** An output only looks at values pushed no later than itself. */
  lemma OutLocal<F>(o: Arith<F>, v: seq<F>, x: F, d: seq<F>, y: F)
    requires |v| > 0 && |d| > 0
    ensures OutI(o, v + [x], |v| - 1) == OutI(o, v, |v| - 1)
    ensures OutQ(o, d + [y], |d| - 1) == OutQ(o, d, |d| - 1)
  {
    var w, w' := FirWindow(o, v, |v| - 1), FirWindow(o, v + [x], |v| - 1);
    forall i | 0 <= i < 24
      ensures w'[i] == w[i]
    {
      var n := |v| - 24 + i;
      assert At(o.zero, v + [x], n) == At(o.zero, v, n);
    }
    assert w' == w;
  }
}
