/**
 * The low-pass FIR filter instance fir_lpf and the step arm_fir_f32 applies to it.
 * The step is an idealised direct-form FIR over `real`. As in CMSIS-DSP, the
 * coefficient table is stored time-reversed: output n is
 * sum_k pCoeffs[k] * w[k] over the window w of the numTaps inputs ending at
 * x[n], oldest first, so pCoeffs[0] meets the oldest sample. The delay line
 * holds the numTaps - 1 most recent earlier inputs, so block boundaries are
 * seamless.
 */
module FirFilter {
  /** NUM_TAPS and BLOCK_SIZE of the source. */
  const NUM_TAPS: nat := 58
  const BLOCK_SIZE: nat := 28
  /** Length of firStateF32. */
  const STATE_LENGTH: nat := BLOCK_SIZE + NUM_TAPS - 1

  /**
   * An arm_fir_instance_f32: its number of taps and coefficient table, the delay
   * line (the meaningful part of its state array), and the block size and state
   * array length it was initialised with.
   */
  datatype FirInstance = FirInstance(numTaps: nat, coeffs: seq<real>, delay: seq<real>,
                                     blockSize: nat, stateLength: nat)
  {
    /** The state array holds numTaps + blockSize - 1 samples, as the library requires. */
    predicate Valid() {
      1 <= numTaps && |coeffs| == numTaps && |delay| == numTaps - 1 &&
      numTaps + blockSize - 1 <= stateLength
    }
  }

  /** arm_fir_init_f32: bind the first numTaps coefficients and clear the state. */
  function FirInit(numTaps: nat, coeffs: seq<real>, stateLength: nat, blockSize: nat): (f: FirInstance)
    requires 1 <= numTaps <= |coeffs|
    requires numTaps + blockSize - 1 <= stateLength
    ensures f.Valid()
    ensures f.numTaps == numTaps && f.coeffs == coeffs[..numTaps]
    ensures f.blockSize == blockSize && f.stateLength == stateLength
    ensures forall k :: 0 <= k < |f.delay| ==> f.delay[k] == 0.0
  {
    FirInstance(numTaps, coeffs[..numTaps], seq(numTaps - 1, _ => 0.0), blockSize, stateLength)
  }

  /** dsp_config: the instance the source initialises from the coefficient table B. */
  function DspConfig(b: seq<real>): (f: FirInstance)
    requires NUM_TAPS <= |b|
    ensures f.Valid()
    ensures f.numTaps == 58 && f.blockSize == 28 && f.stateLength == 85
    ensures f.stateLength == f.blockSize + f.numTaps - 1
    ensures f.coeffs == b[..58]
    ensures forall k :: 0 <= k < |f.delay| ==> f.delay[k] == 0.0
  {
    FirInit(NUM_TAPS, b, STATE_LENGTH, BLOCK_SIZE)
  }

  /** sum_k c[k] * w[k]: one output of the filter over the window w of inputs, oldest first. */
  function Dot(c: seq<real>, w: seq<real>): real
    requires |c| == |w|
  {
    if |c| == 0 then 0.0 else c[0] * w[0] + Dot(c[1..], w[1..])
  }

  function Sum(c: seq<real>): real
  {
    if |c| == 0 then 0.0 else c[0] + Sum(c[1..])
  }

  /** arm_fir_f32 on one block: the outputs for the block and the instance with its delay line advanced. */
  function FirStep(f: FirInstance, block: seq<real>): (r: (FirInstance, seq<real>))
    requires f.Valid()
    ensures r.0.Valid() && |r.1| == |block|
    ensures r.0.numTaps == f.numTaps && r.0.coeffs == f.coeffs
    ensures r.0.blockSize == f.blockSize && r.0.stateLength == f.stateLength
  {
    var ext := f.delay + block;
    (f.(delay := ext[|block|..]),
     seq(|block|, n requires 0 <= n < |block| => Dot(f.coeffs, ext[n..n + f.numTaps])))
  }

  /** c with its order reversed: the impulse response h of a time-reversed coefficient table. */
  function Reversed(c: seq<real>): seq<real>
  {
    seq(|c|, k requires 0 <= k < |c| => c[|c| - 1 - k])
  }

  /**
   * The FIR difference equation, an independent reference for the step:
   * y[n] = sum_{k < |h|, k <= n} h[k] * x[n - k], inputs before x[0] taken as zero.
   */
  function Convolve(h: seq<real>, x: seq<real>, n: int): real
    requires n < |x|
    decreases |h|
  {
    if |h| == 0 || n < 0 then 0.0 else h[0] * x[n] + Convolve(h[1..], x, n - 1)
  }

  /** A tap sum split at its newest sample. */
  lemma {:induction false} DotSnoc(c: seq<real>, w: seq<real>)
    requires |c| == |w| && |c| > 0
    ensures Dot(c, w) == Dot(c[..|c| - 1], w[..|w| - 1]) + c[|c| - 1] * w[|w| - 1]
    decreases |c|
  {
    if |c| > 1 {
      DotSnoc(c[1..], w[1..]);
      assert c[1..][..|c| - 2] == c[..|c| - 1][1..];
      assert w[1..][..|w| - 2] == w[..|w| - 1][1..];
    }
  }

  predicate AllZero(d: seq<real>)
  {
    forall i :: 0 <= i < |d| ==> d[i] == 0.0
  }

  /**
   * Over a zero delay line d, the tap sum over the |c| samples of d + x ending at
   * x[n] (a sample of d when n < 0) is the difference equation with h = Reversed(c).
   */
  lemma {:induction false} WindowIsConvolution(c: seq<real>, d: seq<real>, x: seq<real>, n: int)
    requires AllZero(d) && n < |x| && |c| <= |d| + n + 1
    ensures Dot(c, (d + x)[|d| + n + 1 - |c|..|d| + n + 1]) == Convolve(Reversed(c), x, n)
    decreases |c|
  {
    var ext := d + x;
    var m, e := |c|, |d| + n;
    if m > 0 {
      var w := ext[e + 1 - m..e + 1];
      DotSnoc(c, w);
      assert w[..m - 1] == ext[e + 1 - m..e];
      WindowIsConvolution(c[..m - 1], d, x, n - 1);
      var h := Reversed(c);
      assert h[1..] == Reversed(c[..m - 1]);
      if n < 0 {
        assert ext[e] == d[e] == 0.0;
      } else {
        assert ext[e] == x[n];
      }
    }
  }

  /**
   * From a cleared delay line, as arm_fir_init_f32 leaves it, output n of one call
   * is the difference equation with impulse response Reversed(coeffs).
   */
  lemma FirStepFromRest(f: FirInstance, block: seq<real>, n: nat)
    requires f.Valid() && AllZero(f.delay) && n < |block|
    ensures FirStep(f, block).1[n] == Convolve(Reversed(f.coeffs), block, n)
  {
    WindowIsConvolution(f.coeffs, f.delay, block, n);
  }

  /** The difference equation at n reads only x[..n + 1]. */
  lemma {:induction false} ConvolvePrefix(h: seq<real>, x: seq<real>, p: nat, n: int)
    requires n < p <= |x|
    ensures Convolve(h, x[..p], n) == Convolve(h, x, n)
    decreases |h|
  {
    if |h| > 0 && n >= 0 {
      ConvolvePrefix(h[1..], x, p, n - 1);
    }
  }

  lemma SliceOfSuffix(s: seq<real>, k: nat, m: nat, t: nat)
    requires k + m + t <= |s|
    ensures s[k..][m..m + t] == s[k + m..k + m + t]
  {
  }

  /** Filtering a then b with the state threaded equals filtering a ++ b in one call. */
  lemma {:induction false} StepSplit(f: FirInstance, a: seq<real>, b: seq<real>)
    requires f.Valid()
    ensures FirStep(FirStep(f, a).0, b).0 == FirStep(f, a + b).0
    ensures FirStep(f, a).1 + FirStep(FirStep(f, a).0, b).1 == FirStep(f, a + b).1
  {
    var t := f.numTaps;
    var (f1, o1) := FirStep(f, a);
    var (f2, o2) := FirStep(f1, b);
    var (g, o) := FirStep(f, a + b);
    var extA := f.delay + a;
    var ext2 := f1.delay + b;
    var extAB := f.delay + (a + b);
    assert f1.delay == extA[|a|..];
    assert ext2 == extAB[|a|..];
    assert f2.delay == ext2[|b|..] == extAB[|a + b|..];
    assert f2 == g;
    forall n | 0 <= n < |a|
      ensures o1[n] == o[n]
    {
      assert extA[n..n + t] == extAB[n..n + t];
    }
    forall m | 0 <= m < |b|
      ensures o2[m] == o[|a| + m]
    {
      SliceOfSuffix(extAB, |a|, m, t);
    }
    assert o1 + o2 == o;
  }

  /**
   * The source's block loop: k consecutive BLOCK_SIZE blocks of input, one
   * arm_fir_f32 call each, the instance threaded from call to call.
   */
  function FilterBlocks(f: FirInstance, input: seq<real>, k: nat): (r: (FirInstance, seq<real>))
    requires f.Valid() && k * BLOCK_SIZE <= |input|
    ensures r.0.Valid() && |r.1| == k * BLOCK_SIZE
    ensures r.0.numTaps == f.numTaps && r.0.coeffs == f.coeffs
    ensures r.0.blockSize == f.blockSize && r.0.stateLength == f.stateLength
  {
    if k == 0 then (f, [])
    else
      var (f1, o1) := FilterBlocks(f, input, k - 1);
      var (f2, o2) := FirStep(f1, input[(k - 1) * BLOCK_SIZE..k * BLOCK_SIZE]);
      (f2, o1 + o2)
  }

  /** Block-wise filtering is seamless: it equals one pass over the k blocks. */
  lemma {:induction false} BlockwiseIsOnePass(f: FirInstance, input: seq<real>, k: nat)
    requires f.Valid() && k * BLOCK_SIZE <= |input|
    ensures FilterBlocks(f, input, k) == FirStep(f, input[..k * BLOCK_SIZE])
  {
    if k == 0 {
      assert f.delay[0..] == f.delay;
      assert FirStep(f, input[..0]).0 == f;
    } else {
      var lo := (k - 1) * BLOCK_SIZE;
      var hi := k * BLOCK_SIZE;
      BlockwiseIsOnePass(f, input, k - 1);
      StepSplit(f, input[..lo], input[lo..hi]);
      assert input[..lo] + input[lo..hi] == input[..hi];
    }
  }

  /**
   * The filter dsp_config sets up, run block by block from its cleared state, is
   * the difference equation over the whole input with h[k] = B[57 - k].
   */
  lemma ConfiguredFilterIsConvolution(b: seq<real>, input: seq<real>, k: nat, n: nat)
    requires NUM_TAPS <= |b| && k * BLOCK_SIZE <= |input| && n < k * BLOCK_SIZE
    ensures FilterBlocks(DspConfig(b), input, k).1[n] == Convolve(Reversed(b[..NUM_TAPS]), input, n)
  {
    var f := DspConfig(b);
    var p := k * BLOCK_SIZE;
    BlockwiseIsOnePass(f, input, k);
    FirStepFromRest(f, input[..p], n);
    ConvolvePrefix(Reversed(f.coeffs), input, p, n);
  }

  /**
   * For a symmetric (linear-phase) table the reversal is invisible: the filter is
   * y[n] = sum_k B[k] * x[n - k].
   */
  lemma SymmetricTableIsDirect(b: seq<real>, input: seq<real>, k: nat, n: nat)
    requires NUM_TAPS <= |b| && k * BLOCK_SIZE <= |input| && n < k * BLOCK_SIZE
    requires forall i :: 0 <= i < NUM_TAPS ==> b[i] == b[NUM_TAPS - 1 - i]
    ensures FilterBlocks(DspConfig(b), input, k).1[n] == Convolve(b[..NUM_TAPS], input, n)
  {
    ConfiguredFilterIsConvolution(b, input, k, n);
    assert Reversed(b[..NUM_TAPS]) == b[..NUM_TAPS];
  }

  /** A window of inputs all equal to v yields v times the coefficient sum. */
  lemma {:induction false} DotOfConstant(c: seq<real>, w: seq<real>, v: real)
    requires |c| == |w|
    requires forall i :: 0 <= i < |w| ==> w[i] == v
    ensures Dot(c, w) == v * Sum(c)
  {
    if |c| > 0 {
      DotOfConstant(c[1..], w[1..], v);
      assert v * Sum(c) == v * c[0] + v * Sum(c[1..]);
    }
  }

  /**
   * Unity DC gain: when the coefficients sum to 1 and the delay line and the block
   * carry a constant v, every output of the step is v.
   */
  lemma UnityGainSteadyState(f: FirInstance, block: seq<real>, v: real)
    requires f.Valid() && Sum(f.coeffs) == 1.0
    requires forall i :: 0 <= i < |f.delay| ==> f.delay[i] == v
    requires forall i :: 0 <= i < |block| ==> block[i] == v
    ensures forall n :: 0 <= n < |block| ==> FirStep(f, block).1[n] == v
  {
    var ext := f.delay + block;
    forall n | 0 <= n < |block|
      ensures FirStep(f, block).1[n] == v
    {
      DotOfConstant(f.coeffs, ext[n..n + f.numTaps], v);
    }
  }
}
