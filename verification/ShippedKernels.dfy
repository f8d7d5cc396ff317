/** The kernels the converter ships with, and the facts about them that the signal-processing
    statements assume. */
module ShippedKernels {
  import opened Numbers
  import opened RealConverter

  const HB_KERNEL_FLOAT_33_FAST: seq<real> := [
    0.0, -0.0014766307, 0.0, 0.0037777218, 0.0, -0.008223217, 0.0, 0.015783133, 0.0, -0.028321939, 0.0,
    0.050251268, 0.0, -0.09755104, 0.0, 0.31537038, 0.5, 0.31537038, 0.0, -0.09755104, 0.0, 0.050251268, 0.0,
    -0.028321939, 0.0, 0.015783133, 0.0, -0.008223217, 0.0, 0.0037777218, 0.0, -0.0014766307, 0.0
  ]

  const HB_KERNEL_FLOAT_17_FAST: seq<real> := [
    0.0, -0.006009383, 0.0, 0.025370203, 0.0, -0.07765221, 0.0, 0.30773035, 0.5, 0.30773035, 0.0,
    -0.07765221, 0.0, 0.025370203, 0.0, -0.006009383, 0.0
  ]

  const HB_KERNEL_FLOAT: seq<real> := [
    -0.0009986063, 0.0, 0.0016956373, 0.0, -0.0030544302, 0.0, 0.0050555044, 0.0, -0.007901319, 0.0,
    0.011873357, 0.0, -0.01741116, 0.0, 0.025304817, 0.0, -0.037225224, 0.0, 0.057533287, 0.0, -0.10232746,
    0.0, 0.31703448, 0.5
  ] + [
    0.31703448, 0.0, -0.10232746, 0.0, 0.057533287, 0.0, -0.037225224, 0.0, 0.025304817, 0.0, -0.01741116,
    0.0, 0.011873357, 0.0, -0.007901319, 0.0, 0.0050555044, 0.0, -0.0030544302, 0.0, 0.0016956373, 0.0,
    -0.0009986063
  ]

  function Tap(kernel: seq<real>, i: int): real {
    if 0 <= i < |kernel| then kernel[i] else 0.0
  }

  const ARITH: Arith<real> := RealArith(
    i => Tap(HB_KERNEL_FLOAT, i), i => Tap(HB_KERNEL_FLOAT_33_FAST, i), i => Tap(HB_KERNEL_FLOAT_17_FAST, i))

  /** Symmetry and zero pattern of a kernel given as an array. */
  ghost predicate Shape(kernel: seq<real>, i: nat) {
    && 2 * i < |kernel|
    && kernel[i] == kernel[|kernel| - 1 - i]
    && (i % 2 == |kernel| / 2 % 2 && i != |kernel| / 2 ==> kernel[i] == 0.0)
  }

  lemma Shape17(i: nat)
    requires i < 9
    ensures Shape(HB_KERNEL_FLOAT_17_FAST, i)
  {
    var k := HB_KERNEL_FLOAT_17_FAST;
    assert Shape(k, 0) && Shape(k, 1) && Shape(k, 2);
    assert Shape(k, 3) && Shape(k, 4) && Shape(k, 5);
    assert Shape(k, 6) && Shape(k, 7) && Shape(k, 8);
  }

  lemma Shape33Outer(i: nat)
    requires i < 9
    ensures Shape(HB_KERNEL_FLOAT_33_FAST, i)
  {
    var k := HB_KERNEL_FLOAT_33_FAST;
    assert Shape(k, 0) && Shape(k, 1) && Shape(k, 2);
    assert Shape(k, 3) && Shape(k, 4) && Shape(k, 5);
    assert Shape(k, 6) && Shape(k, 7) && Shape(k, 8);
  }

  lemma Shape33Inner(i: nat)
    requires 9 <= i < 17
    ensures Shape(HB_KERNEL_FLOAT_33_FAST, i)
  {
    var k := HB_KERNEL_FLOAT_33_FAST;
    assert Shape(k, 9) && Shape(k, 10) && Shape(k, 11);
    assert Shape(k, 12) && Shape(k, 13) && Shape(k, 14);
    assert Shape(k, 15) && Shape(k, 16);
  }

  lemma Shape47Outer(i: nat)
    requires i < 6
    ensures Shape(HB_KERNEL_FLOAT, i)
  {
    var k := HB_KERNEL_FLOAT;
    assert Shape(k, 0) && Shape(k, 1) && Shape(k, 2);
    assert Shape(k, 3) && Shape(k, 4) && Shape(k, 5);
  }

  lemma Shape47Second(i: nat)
    requires 6 <= i < 12
    ensures Shape(HB_KERNEL_FLOAT, i)
  {
    var k := HB_KERNEL_FLOAT;
    assert Shape(k, 6) && Shape(k, 7) && Shape(k, 8);
    assert Shape(k, 9) && Shape(k, 10) && Shape(k, 11);
  }

  lemma Shape47Third(i: nat)
    requires 12 <= i < 18
    ensures Shape(HB_KERNEL_FLOAT, i)
  {
    var k := HB_KERNEL_FLOAT;
    assert Shape(k, 12) && Shape(k, 13) && Shape(k, 14);
    assert Shape(k, 15) && Shape(k, 16) && Shape(k, 17);
  }

  lemma Shape47Inner(i: nat)
    requires 18 <= i < 24
    ensures Shape(HB_KERNEL_FLOAT, i)
  {
    var k := HB_KERNEL_FLOAT;
    assert Shape(k, 18) && Shape(k, 19) && Shape(k, 20);
    assert Shape(k, 21) && Shape(k, 22) && Shape(k, 23);
  }

  lemma ShapeIsHalfBand(kernel: seq<real>, tap: int -> real, h: nat)
    requires |kernel| == 2 * h + 1 && forall i :: tap(i) == Tap(kernel, i)
    requires forall i :: 0 <= i <= h ==> Shape(kernel, i)
    ensures HalfBand(tap, h)
  {
    forall i {:trigger tap(i)} | 0 <= i <= 2 * h
      ensures tap(i) == tap(2 * h - i) && (i % 2 == h % 2 && i != h ==> tap(i) == 0.0)
    {
      assert Shape(kernel, if i <= h then i else 2 * h - i);
    }
  }

  /** All three kernels have half-band shape, and their oldest weighted taps do not vanish. */
  lemma ShippedKernelsAreHalfBand()
    ensures HalfBandKernels(ARITH)
    ensures ARITH.hb33(1) != 0.0 && ARITH.hb17(1) != 0.0
  {
    hide Shape, HalfBand;
    forall i: nat {:trigger Shape(HB_KERNEL_FLOAT_17_FAST, i)} | i <= 8 ensures Shape(HB_KERNEL_FLOAT_17_FAST, i) {
      Shape17(i);
    }
    forall i: nat {:trigger Shape(HB_KERNEL_FLOAT_33_FAST, i)} | i <= 16 ensures Shape(HB_KERNEL_FLOAT_33_FAST, i) {
      if i < 9 { Shape33Outer(i); } else { Shape33Inner(i); }
    }
    forall i: nat {:trigger Shape(HB_KERNEL_FLOAT, i)} | i <= 23 ensures Shape(HB_KERNEL_FLOAT, i) {
      if i < 6 { Shape47Outer(i); } else if i < 12 { Shape47Second(i); } else if i < 18 { Shape47Third(i); }
      else { Shape47Inner(i); }
    }
    ShapeIsHalfBand(HB_KERNEL_FLOAT_17_FAST, ARITH.hb17, 8);
    ShapeIsHalfBand(HB_KERNEL_FLOAT_33_FAST, ARITH.hb33, 16);
    ShapeIsHalfBand(HB_KERNEL_FLOAT, ARITH.hb47, 23);
  }
}
