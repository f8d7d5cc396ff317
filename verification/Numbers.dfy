/** The number type of the converter, and the ring-buffer vocabulary shared by its filters.

    The converter is written once, over an arbitrary number type `F` with uninterpreted
    operations. Whatever is proved for every `Arith<F>` holds bit for bit of `f32`, because no
    law of arithmetic is available to the proofs. `RealConverter` supplies the instance over
    `real` for the statements that need algebra. */
module Numbers {

  datatype Option<+T> = None | Some(value: T)

  /** Operations and constants of the number type. The kernels are total in their index. */
  datatype Arith<!F> = Arith(
    plus: (F, F) -> F,
    minus: (F, F) -> F,
    times: (F, F) -> F,
    over: (F, F) -> F,
    negate: F -> F,
    fromCode: int -> F,
    zero: F,
    one: F,
    half: F,
    alpha: F,
    midpoint: F,
    hb47: int -> F,
    hb33: int -> F,
    hb17: int -> F)
  {
    function Add(x: F, y: F): F { plus(x, y) }
    function Sub(x: F, y: F): F { minus(x, y) }
    function Mul(x: F, y: F): F { times(x, y) }
    function Div(x: F, y: F): F { over(x, y) }
    function Neg(x: F): F { negate(x) }
    function Code(c: int): F { fromCode(c) }
    function Hb47(k: int): F { hb47(k) }
    function Hb33(k: int): F { hb33(k) }
    function Hb17(k: int): F { hb17(k) }
  }

  datatype Complex<F> = Complex(re: F, im: F)

  /** Interleaved I/Q values read as complex samples. */
  function Pairs<F>(z: seq<F>): (r: seq<Complex<F>>)
    ensures |r| == |z| / 2
  {
    seq(|z| / 2, j requires 0 <= j < |z| / 2 => Complex(z[2 * j], z[2 * j + 1]))
  }

  lemma PairsAppend<F>(z: seq<F>, t: seq<F>)
    requires |z| % 2 == 0
    ensures Pairs(z + t) == Pairs(z) + Pairs(t)
  {
  }

  /** A sample carried over to the next output slice. */
  function Carried<F>(pending: Option<Complex<F>>): (s: seq<Complex<F>>) {
    if pending.Some? then [pending.value] else []
  }
}

/** A mirrored ring buffer seen as the unbounded history of everything pushed into it. */
module Rings {
  /** The n-th pushed value, zero before the first. */
  function At<F>(zero: F, h: seq<F>, n: int): F {
    if 0 <= n < |h| then h[n] else zero
  }

  /** Index of the most recent push into slot `p` (or its mirror `p - size`), when `len` values
      have been pushed and `idx` is the slot the next one goes to. */
  function Newest(len: int, idx: int, size: int, p: int): int {
    var slot := if p < size then p else p - size;
    len - idx + slot - (if slot < idx then 0 else size)
  }

  /** Both copies of the ring hold the newest `size` values of the history. */
  ghost predicate Mirrors<F>(q: seq<F>, size: nat, idx: nat, zero: F, h: seq<F>) {
    && |q| == 2 * size
    && idx < size
    && forall p :: 0 <= p < 2 * size ==> q[p] == At(zero, h, Newest(|h|, idx, size, p))
  }

  /** A push moves one slot to the new value and leaves what every other slot holds. */
  lemma NewestPush(len: nat, idx: nat, idx': nat, size: nat, p: nat)
    requires idx < size && p < 2 * size
    requires idx' == (if idx + 1 == size then 0 else idx + 1)
    ensures p == idx || p == idx + size ==> Newest(len + 1, idx', size, p) == len
    ensures p != idx && p != idx + size ==> Newest(len + 1, idx', size, p) == Newest(len, idx, size, p) < len
  {
  }

  lemma MirrorsPush<F>(q: seq<F>, q': seq<F>, size: nat, idx: nat, idx': nat, zero: F, h: seq<F>, v: F)
    requires Mirrors(q, size, idx, zero, h)
    requires q' == q[idx := v][idx + size := v]
    requires idx' == (if idx + 1 == size then 0 else idx + 1)
    ensures Mirrors(q', size, idx', zero, h + [v])
  {
    forall p | 0 <= p < 2 * size
      ensures q'[p] == At(zero, h + [v], Newest(|h| + 1, idx', size, p))
    {
      NewestPush(|h|, idx, idx', size, p);
    }
  }
}
