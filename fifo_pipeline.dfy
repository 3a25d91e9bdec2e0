/**
 * The watermark-interrupt path: drain the FIFO, scatter the extracted
 * accelerometer frames into the three per-axis input buffers, count blocks, and
 * after the fifth drain filter each axis window block by block through fir_lpf.
 */
module FifoPipeline {
  import opened Types
  import opened FirFilter

  /** Frames requested from the driver per drain (the size of acc_data). */
  const FRAMES_REQ: nat := 28
  /** Drains per filtered window. */
  const BLOCKS_PER_WINDOW: nat := 5
  /** Capacity of each acc_*_in_buf and acc_*_out_buf. */
  const WINDOW_SIZE: nat := 140

  /** One bmi160_sensor_data frame as far as the pipeline uses it. */
  datatype SensorData = SensorData(x: Int16, y: Int16, z: Int16)

  datatype Axis = X | Y | Z

  function Component(d: SensorData, a: Axis): real
  {
    match a
    case X => d.x as real
    case Y => d.y as real
    case Z => d.z as real
  }

  /** The values one axis takes across a run of frames, in arrival order. */
  function AxisValues(frames: seq<SensorData>, a: Axis): (v: seq<real>)
    ensures |v| == |frames|
    ensures forall i :: 0 <= i < |frames| ==> v[i] == Component(frames[i], a)
  {
    seq(|frames|, i requires 0 <= i < |frames| => Component(frames[i], a))
  }

  /** buf with vals written at positions base .. base + |vals| - 1. */
  function Scatter(buf: seq<real>, vals: seq<real>, base: nat): (r: seq<real>)
    requires base + |vals| <= |buf|
    ensures |r| == |buf|
  {
    buf[..base] + vals + buf[base + |vals|..]
  }

  /** Scatter puts vals[i] at base + i and keeps every other position. */
  lemma ScatterContents(buf: seq<real>, vals: seq<real>, base: nat)
    requires base + |vals| <= |buf|
    ensures forall j :: 0 <= j < |buf| ==>
      Scatter(buf, vals, base)[j] == if base <= j < base + |vals| then vals[j - base] else buf[j]
  {
  }

  /** One arm_fir_f32 call: which axis, where it reads, where it writes, how many samples. */
  datatype FirCall = FirCall(axis: Axis, inStart: nat, outStart: nat, len: nat)

  function AxisSchedule(a: Axis): seq<FirCall>
  {
    seq(BLOCKS_PER_WINDOW, i requires 0 <= i < BLOCKS_PER_WINDOW =>
      FirCall(a, i * BLOCK_SIZE, i * BLOCK_SIZE, BLOCK_SIZE))
  }

  /** The calls compute_fir makes, in order: x0..x4, y0..y4, z0..z4. */
  function WindowSchedule(): (w: seq<FirCall>)
    ensures |w| == 3 * BLOCKS_PER_WINDOW
  {
    AxisSchedule(X) + AxisSchedule(Y) + AxisSchedule(Z)
  }

  /** Call c touches sample position p of its axis. */
  predicate Covers(c: FirCall, p: nat)
  {
    c.inStart <= p < c.inStart + c.len
  }

  function AxisAt(j: nat): Axis
  {
    if j < 5 then X else if j < 10 then Y else Z
  }

  /**
   * Call j of the window filters block j % 5 of axis j / 5 from and to the same
   * range, and per axis the five ranges tile [0, 140) without overlap.
   */
  lemma WindowScheduleTiles()
    ensures |WindowSchedule()| == 3 * BLOCKS_PER_WINDOW
    ensures forall j :: 0 <= j < |WindowSchedule()| ==>
      var c := WindowSchedule()[j];
      c.axis == AxisAt(j) && c.inStart == c.outStart == (j % 5) * BLOCK_SIZE && c.len == BLOCK_SIZE
    ensures forall j, p :: 0 <= j < |WindowSchedule()| && 0 <= p < WINDOW_SIZE ==>
      (Covers(WindowSchedule()[j], p) <==> j % 5 == p / BLOCK_SIZE)
  {
    var w := WindowSchedule();
    forall j | 0 <= j < |w|
      ensures w[j].axis == AxisAt(j) && w[j].inStart == w[j].outStart == (j % 5) * BLOCK_SIZE
      ensures w[j].len == BLOCK_SIZE
    {
      if j < 5 {
        assert w[j] == AxisSchedule(X)[j];
      } else if j < 10 {
        assert w[j] == AxisSchedule(Y)[j - 5];
      } else {
        assert w[j] == AxisSchedule(Z)[j - 10];
      }
    }
  }

  /** The abstract state the interrupt path works on: the global buffers, the counter, the filter. */
  datatype State = State(accData: seq<SensorData>,
                         xIn: seq<real>, yIn: seq<real>, zIn: seq<real>,
                         xOut: seq<real>, yOut: seq<real>, zOut: seq<real>,
                         blockCnt: nat, fir: FirInstance, calls: seq<FirCall>)
  {
    function InBuf(a: Axis): seq<real>
    {
      match a
      case X => xIn
      case Y => yIn
      case Z => zIn
    }
  }

  /** Buffer sizes and filter sizing, whatever the counter. */
  predicate Shaped(s: State)
  {
    |s.accData| == FRAMES_REQ &&
    |s.xIn| == WINDOW_SIZE && |s.yIn| == WINDOW_SIZE && |s.zIn| == WINDOW_SIZE &&
    |s.xOut| == WINDOW_SIZE && |s.yOut| == WINDOW_SIZE && |s.zOut| == WINDOW_SIZE &&
    s.fir.Valid() && BLOCK_SIZE <= s.fir.blockSize
  }

  /** Between interrupts: the counter is in [0, 4]. */
  predicate Ready(s: State)
  {
    Shaped(s) && s.blockCnt < BLOCKS_PER_WINDOW
  }

  function Zeros(): (z: seq<real>)
    ensures |z| == WINDOW_SIZE && forall i :: 0 <= i < |z| ==> z[i] == 0.0
  {
    seq(WINDOW_SIZE, _ => 0.0)
  }

  function NoFrames(): (z: seq<SensorData>)
    ensures |z| == FRAMES_REQ && forall i :: 0 <= i < |z| ==> z[i] == SensorData(0, 0, 0)
  {
    seq(FRAMES_REQ, _ => SensorData(0, 0, 0))
  }

  /** The state after static initialisation and dsp_config. */
  function Initial(b: seq<real>): (s: State)
    requires NUM_TAPS <= |b|
    ensures Ready(s) && s.blockCnt == 0 && s.calls == []
  {
    var zeros := Zeros();
    State(NoFrames(), zeros, zeros, zeros, zeros, zeros, zeros, 0, DspConfig(b), [])
  }

  /** compute_fir: filter every axis window in five blocks, x then y then z, and reset the counter. */
  function ComputeFirStep(s: State): (r: State)
    requires Shaped(s)
    ensures Ready(r) && r.blockCnt == 0
    ensures r.calls == s.calls + WindowSchedule()
    ensures r.accData == s.accData && r.xIn == s.xIn && r.yIn == s.yIn && r.zIn == s.zIn
  {
    var (f1, ox) := FilterBlocks(s.fir, s.xIn, BLOCKS_PER_WINDOW);
    var (f2, oy) := FilterBlocks(f1, s.yIn, BLOCKS_PER_WINDOW);
    var (f3, oz) := FilterBlocks(f2, s.zIn, BLOCKS_PER_WINDOW);
    s.(xOut := ox, yOut := oy, zOut := oz, fir := f3, blockCnt := 0,
       calls := s.calls + WindowSchedule())
  }

  /**
   * The single shared instance makes a window one stream: the outputs of x, y and
   * z are those of filtering xIn ++ yIn ++ zIn in one pass, and the instance is
   * left where that pass leaves it.
   */
  lemma WindowIsOneStream(s: State)
    requires Shaped(s)
    ensures var r := ComputeFirStep(s);
      r.xOut + r.yOut + r.zOut == FirStep(s.fir, s.xIn + s.yIn + s.zIn).1 &&
      r.fir == FirStep(s.fir, s.xIn + s.yIn + s.zIn).0
  {
    var f1 := FilterBlocks(s.fir, s.xIn, BLOCKS_PER_WINDOW).0;
    var f2 := FilterBlocks(f1, s.yIn, BLOCKS_PER_WINDOW).0;
    BlockwiseIsOnePass(s.fir, s.xIn, BLOCKS_PER_WINDOW);
    BlockwiseIsOnePass(f1, s.yIn, BLOCKS_PER_WINDOW);
    BlockwiseIsOnePass(f2, s.zIn, BLOCKS_PER_WINDOW);
    assert s.xIn[..WINDOW_SIZE] == s.xIn;
    assert s.yIn[..WINDOW_SIZE] == s.yIn;
    assert s.zIn[..WINDOW_SIZE] == s.zIn;
    StepSplit(s.fir, s.xIn, s.yIn);
    StepSplit(s.fir, s.xIn + s.yIn, s.zIn);
  }

  /**
   * What the shared instance does to the y axis: its first output is the tap sum
   * over the last 57 samples of the x window followed by the first y sample.
   */
  lemma SharedInstanceCarriesXIntoY(s: State)
    requires Shaped(s) && s.fir.numTaps == NUM_TAPS
    ensures ComputeFirStep(s).yOut[0] ==
      Dot(s.fir.coeffs, s.xIn[WINDOW_SIZE - (NUM_TAPS - 1)..] + [s.yIn[0]])
  {
    var all := s.xIn + s.yIn + s.zIn;
    var ext := s.fir.delay + all;
    WindowIsOneStream(s);
    var r := ComputeFirStep(s);
    assert r.yOut[0] == (r.xOut + r.yOut + r.zOut)[WINDOW_SIZE];
    assert ext[WINDOW_SIZE..WINDOW_SIZE + NUM_TAPS] ==
      s.xIn[WINDOW_SIZE - (NUM_TAPS - 1)..] + [s.yIn[0]];
  }

  /** The three axis windows compute_fir filters. */
  datatype Window = Window(x: seq<real>, y: seq<real>, z: seq<real>)
  {
    predicate Sized()
    {
      |x| == WINDOW_SIZE && |y| == WINDOW_SIZE && |z| == WINDOW_SIZE
    }

    function At(a: Axis): seq<real>
    {
      match a
      case X => x
      case Y => y
      case Z => z
    }
  }

  /** One filter instance per axis. */
  datatype AxisFilters = AxisFilters(x: FirInstance, y: FirInstance, z: FirInstance)
  {
    predicate Valid()
    {
      x.Valid() && y.Valid() && z.Valid()
    }

    function At(a: Axis): FirInstance
    {
      match a
      case X => x
      case Y => y
      case Z => z
    }
  }

  /**
   * compute_fir as its own comment describes it, each axis processed on its own:
   * the five blocks of each axis go through that axis's instance.
   */
  function IntendedFilterWindow(f: AxisFilters, w: Window): (r: (AxisFilters, Window))
    requires f.Valid() && w.Sized()
    ensures r.0.Valid() && r.1.Sized()
  {
    var (gx, ox) := FilterBlocks(f.x, w.x, BLOCKS_PER_WINDOW);
    var (gy, oy) := FilterBlocks(f.y, w.y, BLOCKS_PER_WINDOW);
    var (gz, oz) := FilterBlocks(f.z, w.z, BLOCKS_PER_WINDOW);
    (AxisFilters(gx, gy, gz), Window(ox, oy, oz))
  }

  /** With an instance per axis, one window filters each axis as one pass over that axis alone. */
  lemma IntendedWindowIsAxisPass(f: AxisFilters, w: Window, a: Axis)
    requires f.Valid() && w.Sized()
    ensures IntendedFilterWindow(f, w).1.At(a) == FirStep(f.At(a), w.At(a)).1
    ensures IntendedFilterWindow(f, w).0.At(a) == FirStep(f.At(a), w.At(a)).0
  {
    BlockwiseIsOnePass(f.At(a), w.At(a), BLOCKS_PER_WINDOW);
    assert w.At(a)[..WINDOW_SIZE] == w.At(a);
  }

  /**
   * With an instance per axis, each axis of two consecutive windows is filtered as
   * one stream of that axis's samples: the other axes never reach it.
   */
  lemma IntendedAxisIsOwnStream(f: AxisFilters, w1: Window, w2: Window, a: Axis)
    requires f.Valid() && w1.Sized() && w2.Sized()
    ensures var r1 := IntendedFilterWindow(f, w1);
      r1.1.At(a) + IntendedFilterWindow(r1.0, w2).1.At(a) == FirStep(f.At(a), w1.At(a) + w2.At(a)).1
  {
    var r1 := IntendedFilterWindow(f, w1);
    IntendedWindowIsAxisPass(f, w1, a);
    IntendedWindowIsAxisPass(r1.0, w2, a);
    StepSplit(f.At(a), w1.At(a), w2.At(a));
  }

  /**
   * Started from dsp_config's cleared instance on every axis, output n of an axis
   * over two windows is the difference equation over that axis's samples only.
   */
  lemma IntendedFromConfigIsConvolution(b: seq<real>, w1: Window, w2: Window, a: Axis, n: nat)
    requires NUM_TAPS <= |b| && w1.Sized() && w2.Sized() && n < 2 * WINDOW_SIZE
    ensures var f := AxisFilters(DspConfig(b), DspConfig(b), DspConfig(b));
      var r1 := IntendedFilterWindow(f, w1);
      (r1.1.At(a) + IntendedFilterWindow(r1.0, w2).1.At(a))[n] ==
        Convolve(Reversed(b[..NUM_TAPS]), w1.At(a) + w2.At(a), n)
  {
    var f := AxisFilters(DspConfig(b), DspConfig(b), DspConfig(b));
    IntendedAxisIsOwnStream(f, w1, w2, a);
    FirStepFromRest(f.At(a), w1.At(a) + w2.At(a), n);
  }

  /** acc_frames_req * block_cnt: the index of the first sample a drain writes. */
  function DemuxBase(n: nat, b: nat): (r: nat)
    ensures n <= FRAMES_REQ ==> r <= FRAMES_REQ * b
  {
    n * b
  }

  /** Every index a drain of n <= 28 frames writes at counter b <= 4 is inside the window. */
  lemma DemuxInBounds(n: nat, b: nat)
    requires n <= FRAMES_REQ && b < BLOCKS_PER_WINDOW
    ensures DemuxBase(n, b) + n <= WINDOW_SIZE
  {
  }

  /** Store the frames in acc_data, write frame i's axes at index base + i, and count the block. */
  function DemuxAt(s: State, frames: seq<SensorData>, base: nat): (r: State)
    requires Ready(s) && |frames| <= FRAMES_REQ && base + |frames| <= WINDOW_SIZE
    ensures Shaped(r) && r.blockCnt == s.blockCnt + 1
    ensures r.accData == frames + s.accData[|frames|..]
    ensures r.calls == s.calls && r.fir == s.fir && r.xOut == s.xOut && r.yOut == s.yOut && r.zOut == s.zOut
  {
    s.(accData := frames + s.accData[|frames|..],
       xIn := Scatter(s.xIn, AxisValues(frames, X), base),
       yIn := Scatter(s.yIn, AxisValues(frames, Y), base),
       zIn := Scatter(s.zIn, AxisValues(frames, Z), base),
       blockCnt := s.blockCnt + 1)
  }

  /**
   * The copy loop of get_bmi160_fifo_data and the increment after it, as written:
   * frame i goes to n * blockCnt + i, n being the extracted count.
   */
  function Demux(s: State, frames: seq<SensorData>): (r: State)
    requires Ready(s) && |frames| <= FRAMES_REQ
    ensures Shaped(r) && r.blockCnt == s.blockCnt + 1
    ensures r.accData == frames + s.accData[|frames|..]
    ensures r.calls == s.calls && r.fir == s.fir && r.xOut == s.xOut && r.yOut == s.yOut && r.zOut == s.zOut
  {
    DemuxInBounds(|frames|, s.blockCnt);
    DemuxAt(s, frames, DemuxBase(|frames|, s.blockCnt))
  }

  /** get_bmi160_fifo_data after extraction produced `frames`: demultiplex, and on the fifth block run compute_fir. */
  function DrainStep(s: State, frames: seq<SensorData>): (r: State)
    requires Ready(s) && |frames| <= FRAMES_REQ
    ensures Ready(r)
    ensures r.blockCnt == (s.blockCnt + 1) % BLOCKS_PER_WINDOW
    ensures r.accData == frames + s.accData[|frames|..]
    ensures s.blockCnt + 1 < BLOCKS_PER_WINDOW ==>
      r.calls == s.calls && r.fir == s.fir && r.xOut == s.xOut && r.yOut == s.yOut && r.zOut == s.zOut
    ensures s.blockCnt + 1 == BLOCKS_PER_WINDOW ==> r.calls == s.calls + WindowSchedule()
  {
    var t := Demux(s, frames);
    if t.blockCnt == BLOCKS_PER_WINDOW then ComputeFirStep(t) else t
  }

  /**
   * A drain of n frames at counter b puts frame i's axis value at n * b + i and
   * leaves every other input position as it was.
   */
  lemma DemuxContents(s: State, frames: seq<SensorData>, a: Axis)
    requires Ready(s) && |frames| <= FRAMES_REQ
    ensures var n, b := |frames|, s.blockCnt;
      var r := DrainStep(s, frames).InBuf(a);
      n * b + n <= WINDOW_SIZE &&
      (forall i :: 0 <= i < n ==> r[n * b + i] == Component(frames[i], a)) &&
      (forall j :: 0 <= j < WINDOW_SIZE && !(n * b <= j < n * b + n) ==> r[j] == s.InBuf(a)[j])
  {
    DemuxInBounds(|frames|, s.blockCnt);
    var base := DemuxBase(|frames|, s.blockCnt);
    assert DrainStep(s, frames).InBuf(a) == Demux(s, frames).InBuf(a);
    assert Demux(s, frames).InBuf(a) == Scatter(s.InBuf(a), AxisValues(frames, a), base);
    ScatterContents(s.InBuf(a), AxisValues(frames, a), base);
  }

  /**
   * The copy loop with the stride the window layout calls for (compute_fir reads
   * block j at BLOCK_SIZE * j): frame i of the drain at counter b goes to
   * BLOCK_SIZE * b + i.
   */
  function IntendedDemux(s: State, frames: seq<SensorData>): (r: State)
    requires Ready(s) && |frames| <= FRAMES_REQ
    ensures Shaped(r) && r.blockCnt == s.blockCnt + 1
    ensures r.accData == frames + s.accData[|frames|..]
  {
    BlockInWindow(s.blockCnt, |frames|);
    DemuxAt(s, frames, BLOCK_SIZE * s.blockCnt)
  }

  lemma BlockInWindow(b: nat, n: nat)
    requires b < BLOCKS_PER_WINDOW && n <= FRAMES_REQ
    ensures BLOCK_SIZE * b + n <= WINDOW_SIZE
  {
  }

  /**
   * With the intended stride the drain at counter b writes exactly
   * [28 b, 28 b + n), frame i at 28 b + i, and nothing outside its own block.
   */
  lemma IntendedDemuxContents(s: State, frames: seq<SensorData>, a: Axis)
    requires Ready(s) && |frames| <= FRAMES_REQ
    ensures var lo, r := BLOCK_SIZE * s.blockCnt, IntendedDemux(s, frames).InBuf(a);
      lo + |frames| <= lo + BLOCK_SIZE <= WINDOW_SIZE &&
      (forall i :: 0 <= i < |frames| ==> r[lo + i] == Component(frames[i], a)) &&
      (forall j :: 0 <= j < WINDOW_SIZE && !(lo <= j < lo + |frames|) ==> r[j] == s.InBuf(a)[j])
  {
    var lo := BLOCK_SIZE * s.blockCnt;
    BlockInWindow(s.blockCnt, FRAMES_REQ);
    assert IntendedDemux(s, frames).InBuf(a) == Scatter(s.InBuf(a), AxisValues(frames, a), lo);
    ScatterContents(s.InBuf(a), AxisValues(frames, a), lo);
  }

  /**
   * With the intended stride the next drain leaves the previous block alone,
   * whatever the two counts: the contrast to ShortDrainOverlapsPreviousBlock.
   */
  lemma IntendedKeepsEarlierBlock(s: State, d1: seq<SensorData>, d2: seq<SensorData>, a: Axis)
    requires Ready(s) && s.blockCnt + 1 < BLOCKS_PER_WINDOW
    requires |d1| <= FRAMES_REQ && |d2| <= FRAMES_REQ
    ensures var s1 := IntendedDemux(s, d1);
      Ready(s1) &&
      forall i :: 0 <= i < |d1| ==>
        IntendedDemux(s1, d2).InBuf(a)[BLOCK_SIZE * s.blockCnt + i] == Component(d1[i], a)
  {
    var s1 := IntendedDemux(s, d1);
    var lo := BLOCK_SIZE * s.blockCnt;
    IntendedDemuxContents(s, d1, a);
    IntendedDemuxContents(s1, d2, a);
    assert BLOCK_SIZE * s1.blockCnt == lo + BLOCK_SIZE;
  }

  /** On a full drain the two strides coincide, so full windows are laid out as intended. */
  lemma FullDrainStrideAgrees(s: State, frames: seq<SensorData>)
    requires Ready(s) && |frames| == FRAMES_REQ
    ensures IntendedDemux(s, frames) == Demux(s, frames)
  {
  }

  /** Every drain reported at most acc_frames_req (28) frames. */
  predicate AllWithin(drains: seq<seq<SensorData>>)
    decreases |drains|
  {
    |drains| == 0 || (|drains[0]| <= FRAMES_REQ && AllWithin(drains[1..]))
  }

  /** A sequence of watermark interrupts, one drain each. */
  function Run(s: State, drains: seq<seq<SensorData>>): (r: State)
    requires Ready(s) && AllWithin(drains)
    ensures Ready(r)
    decreases |drains|
  {
    if |drains| == 0 then s else Run(DrainStep(s, drains[0]), drains[1..])
  }

  /**
   * After k drains the counter is (b + k) % 5 and compute_fir has run once for
   * every completed window, (b + k) / 5 times, 15 filter calls each.
   */
  lemma {:induction false} CounterAfterDrains(s: State, drains: seq<seq<SensorData>>)
    requires Ready(s) && AllWithin(drains)
    ensures Run(s, drains).blockCnt == (s.blockCnt + |drains|) % BLOCKS_PER_WINDOW
    ensures |Run(s, drains).calls| ==
      |s.calls| + 15 * ((s.blockCnt + |drains|) / BLOCKS_PER_WINDOW)
    decreases |drains|
  {
    var b := s.blockCnt;
    if |drains| == 0 {
      assert Run(s, drains) == s;
      assert (b + 0) % BLOCKS_PER_WINDOW == b && (b + 0) / BLOCKS_PER_WINDOW == 0;
    } else {
      var k := |drains| - 1;
      var rest := drains[1..];
      var s1 := DrainStep(s, drains[0]);
      assert Run(s, drains) == Run(s1, rest);
      CounterAfterDrains(s1, rest);
      CounterArithmetic(b, k);
      assert b + 1 + k == b + |drains|;
    }
  }

  /** One drain moves the counter from b to (b + 1) % 5 and completes a window iff b == 4. */
  lemma CounterArithmetic(b: nat, k: nat)
    requires b < BLOCKS_PER_WINDOW
    ensures ((b + 1) % BLOCKS_PER_WINDOW + k) % BLOCKS_PER_WINDOW == (b + 1 + k) % BLOCKS_PER_WINDOW
    ensures (if b + 1 == BLOCKS_PER_WINDOW then 1 else 0) + ((b + 1) % BLOCKS_PER_WINDOW + k) / BLOCKS_PER_WINDOW
            == (b + 1 + k) / BLOCKS_PER_WINDOW
  {
  }

  /** Every drain reported exactly acc_frames_req (28) frames. */
  predicate AllFull(drains: seq<seq<SensorData>>)
    decreases |drains|
  {
    |drains| == 0 || (|drains[0]| == FRAMES_REQ && AllFull(drains[1..]))
  }

  lemma {:induction false} FullIsWithin(drains: seq<seq<SensorData>>)
    requires AllFull(drains)
    ensures AllWithin(drains)
    decreases |drains|
  {
    if |drains| > 0 {
      FullIsWithin(drains[1..]);
    }
  }

  /** A full drain at counter b writes exactly the block [28 b, 28 (b + 1)). */
  lemma FullDrainInBuf(s: State, d: seq<SensorData>, a: Axis)
    requires Ready(s) && |d| == FRAMES_REQ
    ensures FRAMES_REQ * s.blockCnt + FRAMES_REQ <= WINDOW_SIZE
    ensures DrainStep(s, d).InBuf(a) == Scatter(s.InBuf(a), AxisValues(d, a), FRAMES_REQ * s.blockCnt)
    ensures DrainStep(s, d).blockCnt == NextBlock(s.blockCnt)
  {
    DemuxInBounds(|d|, s.blockCnt);
  }

  /** The counter after one more drain: block_cnt + 1, wrapped to 0 at the end of a window. */
  function NextBlock(b: nat): nat
  {
    if b + 1 == BLOCKS_PER_WINDOW then 0 else b + 1
  }

  /** Drains that each extract 28 frames and do not run past the end of the window. */
  predicate FullRun(s: State, drains: seq<seq<SensorData>>)
  {
    Ready(s) && AllFull(drains) && s.blockCnt + |drains| <= BLOCKS_PER_WINDOW
  }

  /** One axis of a run of full drains, laid end to end in arrival order. */
  function WindowValues(drains: seq<seq<SensorData>>, a: Axis): (v: seq<real>)
    requires AllFull(drains)
    ensures |v| == FRAMES_REQ * |drains|
  {
    if |drains| == 0 then [] else AxisValues(drains[0], a) + WindowValues(drains[1..], a)
  }

  /** An axis buffer with the drains' samples laid end to end from block b on. */
  function Filled(buf: seq<real>, b: nat, drains: seq<seq<SensorData>>, a: Axis): (r: seq<real>)
    requires |buf| == WINDOW_SIZE && AllFull(drains) && b + |drains| <= BLOCKS_PER_WINDOW
    ensures |r| == WINDOW_SIZE
  {
    buf[..FRAMES_REQ * b] + WindowValues(drains, a) + buf[FRAMES_REQ * (b + |drains|)..]
  }

  /**
   * When every drain extracts the full 28 frames, the drains of a window fill the
   * input buffers contiguously in arrival order: from counter b, k more drains
   * (b + k <= 5) put their samples at [28 b, 28 (b + k)) and touch nothing else.
   */
  lemma {:induction false} FullDrainsFillWindow(s: State, drains: seq<seq<SensorData>>, a: Axis)
    requires FullRun(s, drains)
    ensures AllWithin(drains)
    ensures Run(s, drains).InBuf(a) == Filled(s.InBuf(a), s.blockCnt, drains, a)
    decreases |drains|
  {
    if |drains| == 0 {
      FullDrainsBase(s, drains, a);
    } else {
      FullDrainsStep(s, drains, a);
      FullDrainsFillWindow(DrainStep(s, drains[0]), drains[1..], a);
      FullDrainsJoin(s, drains, a);
    }
  }

  lemma FullDrainsBase(s: State, drains: seq<seq<SensorData>>, a: Axis)
    requires FullRun(s, drains) && |drains| == 0
    ensures AllWithin(drains)
    ensures Run(s, drains).InBuf(a) == Filled(s.InBuf(a), s.blockCnt, drains, a)
  {
    var buf, lo := s.InBuf(a), FRAMES_REQ * s.blockCnt;
    assert buf[..lo] + [] + buf[lo..] == buf;
  }

  /** The inductive step: the first drain's block, then what the rest fill. */
  lemma FullDrainsJoin(s: State, drains: seq<seq<SensorData>>, a: Axis)
    requires FullRun(s, drains) && |drains| > 0 && FullRun(DrainStep(s, drains[0]), drains[1..])
    requires AllWithin(drains[1..])
    requires var s1 := DrainStep(s, drains[0]);
      Run(s1, drains[1..]).InBuf(a) == Filled(s1.InBuf(a), s1.blockCnt, drains[1..], a)
    ensures AllWithin(drains)
    ensures Run(s, drains).InBuf(a) == Filled(s.InBuf(a), s.blockCnt, drains, a)
  {
    var s1, rest := DrainStep(s, drains[0]), drains[1..];
    var next := Scatter(s.InBuf(a), AxisValues(drains[0], a), FRAMES_REQ * s.blockCnt);
    var b1 := NextBlock(s.blockCnt);
    FullDrainsStep(s, drains, a);
    FilledStep(s.InBuf(a), s.blockCnt, drains, a);
    calc {
      Run(s, drains).InBuf(a);
      Run(s1, rest).InBuf(a);
      Filled(s1.InBuf(a), s1.blockCnt, rest, a);
      { assert s1.InBuf(a) == next && s1.blockCnt == b1; }
      Filled(next, b1, rest, a);
      Filled(s.InBuf(a), s.blockCnt, drains, a);
    }
  }

  /** The first of a run of full drains: its effect on the buffer and what is left to run. */
  lemma FullDrainsStep(s: State, drains: seq<seq<SensorData>>, a: Axis)
    requires FullRun(s, drains) && |drains| > 0
    ensures AllWithin(drains)
    ensures FullRun(DrainStep(s, drains[0]), drains[1..])
    ensures Run(s, drains) == Run(DrainStep(s, drains[0]), drains[1..])
    ensures DrainStep(s, drains[0]).InBuf(a) == Scatter(s.InBuf(a), AxisValues(drains[0], a), FRAMES_REQ * s.blockCnt)
    ensures DrainStep(s, drains[0]).blockCnt == NextBlock(s.blockCnt)
  {
    AllFullTail(drains);
    RunCons(s, drains);
    FullDrainInBuf(s, drains[0], a);
  }

  lemma AllFullTail(drains: seq<seq<SensorData>>)
    requires AllFull(drains) && |drains| > 0
    ensures AllFull(drains[1..]) && AllWithin(drains)
  {
    FullIsWithin(drains);
  }

  /** Filling from block b is placing the first drain's block at b, then filling from b + 1. */
  lemma FilledCons(buf: seq<real>, b: nat, drains: seq<seq<SensorData>>, a: Axis)
    requires |buf| == WINDOW_SIZE && AllFull(drains) && 0 < |drains| && b + |drains| <= BLOCKS_PER_WINDOW
    ensures AllFull(drains[1..])
    ensures Filled(buf, b, drains, a) ==
      Filled(Scatter(buf, AxisValues(drains[0], a), FRAMES_REQ * b), b + 1, drains[1..], a)
  {
    AllFullTail(drains);
    var rest, vals := drains[1..], AxisValues(drains[0], a);
    var next := Scatter(buf, vals, FRAMES_REQ * b);
    ScatterBlock(buf, vals, b);
    SpliceWindow(buf, vals, WindowValues(rest, a), next, Filled(next, b + 1, rest, a), b, |rest|);
    FilledUnfold(buf, b, drains, a);
  }

  /** Filled with its first drain's block written out. */
  lemma FilledUnfold(buf: seq<real>, b: nat, drains: seq<seq<SensorData>>, a: Axis)
    requires |buf| == WINDOW_SIZE && AllFull(drains) && 0 < |drains| && b + |drains| <= BLOCKS_PER_WINDOW
    ensures Filled(buf, b, drains, a) == buf[..FRAMES_REQ * b]
      + (AxisValues(drains[0], a) + WindowValues(drains[1..], a)) + buf[FRAMES_REQ * (b + 1 + |drains[1..]|)..]
  {
    assert WindowValues(drains, a) == AxisValues(drains[0], a) + WindowValues(drains[1..], a);
    assert b + |drains| == b + 1 + |drains[1..]|;
  }

  /** FilledCons with the counter wrapped as block_cnt is. */
  lemma FilledStep(buf: seq<real>, b: nat, drains: seq<seq<SensorData>>, a: Axis)
    requires |buf| == WINDOW_SIZE && AllFull(drains) && 0 < |drains| && b + |drains| <= BLOCKS_PER_WINDOW
    ensures AllFull(drains[1..])
    ensures Filled(buf, b, drains, a) ==
      Filled(Scatter(buf, AxisValues(drains[0], a), FRAMES_REQ * b), NextBlock(b), drains[1..], a)
  {
    FilledCons(buf, b, drains, a);
    FilledWrap(Scatter(buf, AxisValues(drains[0], a), FRAMES_REQ * b), b, drains[1..], a);
  }

  /** After the fifth block nothing is left to fill, so wrapping the counter to 0 changes nothing. */
  lemma FilledWrap(buf: seq<real>, b: nat, drains: seq<seq<SensorData>>, a: Axis)
    requires |buf| == WINDOW_SIZE && AllFull(drains) && b + 1 + |drains| <= BLOCKS_PER_WINDOW
    ensures Filled(buf, NextBlock(b), drains, a) == Filled(buf, b + 1, drains, a)
  {
    if b + 1 == BLOCKS_PER_WINDOW {
      assert buf[..FRAMES_REQ * 0] + [] + buf[FRAMES_REQ * 0..] == buf;
      assert buf[..FRAMES_REQ * (b + 1)] + [] + buf[FRAMES_REQ * (b + 1)..] == buf;
    }
  }

  /** Placing a full block at counter b replaces exactly [28 b, 28 (b + 1)). */
  lemma ScatterBlock(buf: seq<real>, vals: seq<real>, b: nat)
    requires |buf| == WINDOW_SIZE && |vals| == FRAMES_REQ && b < BLOCKS_PER_WINDOW
    ensures Scatter(buf, vals, FRAMES_REQ * b) == buf[..FRAMES_REQ * b] + vals + buf[FRAMES_REQ * (b + 1)..]
  {
    assert FRAMES_REQ * b + FRAMES_REQ == FRAMES_REQ * (b + 1);
  }

  lemma RunCons(s: State, drains: seq<seq<SensorData>>)
    requires Ready(s) && AllWithin(drains) && |drains| > 0
    ensures AllWithin(drains[1..])
    ensures Run(s, drains) == Run(DrainStep(s, drains[0]), drains[1..])
  {
  }

  /** Sequence bookkeeping for one step of FullDrainsFillWindow. */
  lemma SpliceWindow(buf: seq<real>, vals: seq<real>, flat: seq<real>, next: seq<real>, r: seq<real>,
                     b: nat, k: nat)
    requires |buf| == WINDOW_SIZE && b + 1 + k <= BLOCKS_PER_WINDOW
    requires |vals| == FRAMES_REQ && |flat| == FRAMES_REQ * k
    requires next == buf[..FRAMES_REQ * b] + vals + buf[FRAMES_REQ * (b + 1)..]
    requires r == next[..FRAMES_REQ * (b + 1)] + flat + next[FRAMES_REQ * (b + 1 + k)..]
    ensures r == buf[..FRAMES_REQ * b] + (vals + flat) + buf[FRAMES_REQ * (b + 1 + k)..]
  {
    var lo, mid, hi := FRAMES_REQ * b, FRAMES_REQ * (b + 1), FRAMES_REQ * (b + 1 + k);
    assert next[..mid] == buf[..lo] + vals;
    assert next[hi..] == buf[hi..];
  }

  /**
   * As written the stride is the extracted count, not BLOCK_SIZE: after a full
   * drain, a shorter second drain of n frames lands at n .. 2n - 1 and so
   * overwrites the tail of the first block instead of starting a new one.
   */
  lemma ShortDrainOverlapsPreviousBlock(s: State, d1: seq<SensorData>, d2: seq<SensorData>, a: Axis)
    requires Ready(s) && s.blockCnt == 0
    requires |d1| == FRAMES_REQ && 0 < |d2| < FRAMES_REQ
    ensures AllWithin([d1, d2])
    ensures Run(s, [d1, d2]).InBuf(a)[|d2|] == Component(d2[0], a)
    ensures forall j :: |d2| <= j < FRAMES_REQ && j < 2 * |d2| ==>
      Run(s, [d1, d2]).InBuf(a)[j] == Component(d2[j - |d2|], a)
  {
    var s1 := DrainStep(s, d1);
    RunTwo(s, d1, d2);
    assert s1.blockCnt == 1;
    var n := |d2|;
    var r := Demux(s1, d2);
    assert DrainStep(s1, d2) == r;
    assert DemuxBase(n, 1) == n;
    assert r.InBuf(a) == Scatter(s1.InBuf(a), AxisValues(d2, a), n);
    ScatterContents(s1.InBuf(a), AxisValues(d2, a), n);
  }

  lemma RunTwo(s: State, d1: seq<SensorData>, d2: seq<SensorData>)
    requires Ready(s) && |d1| <= FRAMES_REQ && |d2| <= FRAMES_REQ
    ensures AllWithin([d1, d2])
    ensures Run(s, [d1, d2]) == DrainStep(DrainStep(s, d1), d2)
  {
    var ds := [d1, d2];
    assert ds[0] == d1 && ds[1..] == [d2];
    assert [d2][0] == d2 && [d2][1..] == [];
    var s1 := DrainStep(s, d1);
    var s2 := DrainStep(s1, d2);
    assert Run(s2, []) == s2;
    assert Run(s1, [d2]) == Run(s2, []);
    assert Run(s, ds) == Run(s1, [d2]);
  }

  lemma FilterBlocksNext(f: FirInstance, input: seq<real>, i: nat)
    requires f.Valid() && (i + 1) * BLOCK_SIZE <= |input|
    ensures var prev := FilterBlocks(f, input, i);
      var step := FirStep(prev.0, input[i * BLOCK_SIZE..(i + 1) * BLOCK_SIZE]);
      FilterBlocks(f, input, i + 1) == (step.0, prev.1 + step.1)
  {
  }

  /** One iteration of the copy loop: writing vals[i] at base + i extends the written prefix by one. */
  lemma ScatterStep(buf: seq<real>, vals: seq<real>, base: nat, i: nat)
    requires i < |vals| && base + |vals| <= |buf|
    ensures Scatter(buf, vals[..i], base)[base + i := vals[i]] == Scatter(buf, vals[..i + 1], base)
  {
    var before := buf[..base] + vals[..i] + buf[base + i..];
    var after := buf[..base] + vals[..i + 1] + buf[base + i + 1..];
    assert |before[base + i := vals[i]]| == |after|;
    forall j | 0 <= j < |after| ensures before[base + i := vals[i]][j] == after[j] {
      if j < base {
      } else if j < base + i {
      } else if j == base + i {
      } else {
      }
    }
  }

  /** One iteration of compute_fir's block loop extends the filtered prefix and advances the instance. */
  lemma FilterLoopStep(f: FirInstance, input: seq<real>, i: nat, before: seq<real>, after: seq<real>)
    requires f.Valid() && i < BLOCKS_PER_WINDOW && |input| == WINDOW_SIZE && |before| == WINDOW_SIZE
    requires before[..i * BLOCK_SIZE] == FilterBlocks(f, input, i).1
    requires after == before[..i * BLOCK_SIZE]
      + FirStep(FilterBlocks(f, input, i).0, input[i * BLOCK_SIZE..(i + 1) * BLOCK_SIZE]).1
      + before[(i + 1) * BLOCK_SIZE..]
    ensures FirStep(FilterBlocks(f, input, i).0, input[i * BLOCK_SIZE..(i + 1) * BLOCK_SIZE]).0
      == FilterBlocks(f, input, i + 1).0
    ensures after[..(i + 1) * BLOCK_SIZE] == FilterBlocks(f, input, i + 1).1
  {
    var prev := FilterBlocks(f, input, i);
    var step := FirStep(prev.0, input[i * BLOCK_SIZE..(i + 1) * BLOCK_SIZE]);
    FilterBlocksNext(f, input, i);
    PrefixGrows(before, after, prev.1, step.1, i * BLOCK_SIZE, (i + 1) * BLOCK_SIZE);
  }

  /** One iteration of the copy loop on all three axes: writing frame i at base + i extends each written prefix. */
  lemma FrameStep(x0: seq<real>, y0: seq<real>, z0: seq<real>, frames: seq<SensorData>, base: nat, i: nat)
    requires i < |frames| && base + |frames| <= |x0| && base + |frames| <= |y0| && base + |frames| <= |z0|
    ensures Scatter(x0, AxisValues(frames, X)[..i], base)[base + i := Component(frames[i], X)]
      == Scatter(x0, AxisValues(frames, X)[..i + 1], base)
    ensures Scatter(y0, AxisValues(frames, Y)[..i], base)[base + i := Component(frames[i], Y)]
      == Scatter(y0, AxisValues(frames, Y)[..i + 1], base)
    ensures Scatter(z0, AxisValues(frames, Z)[..i], base)[base + i := Component(frames[i], Z)]
      == Scatter(z0, AxisValues(frames, Z)[..i + 1], base)
  {
    ScatterStep(x0, AxisValues(frames, X), base, i);
    ScatterStep(y0, AxisValues(frames, Y), base, i);
    ScatterStep(z0, AxisValues(frames, Z), base, i);
  }

  /** Writing block o at [lo, hi) extends a filtered prefix o1 of length lo to o1 + o. */
  lemma PrefixGrows(before: seq<real>, after: seq<real>, o1: seq<real>, o: seq<real>, lo: nat, hi: nat)
    requires lo <= hi <= |before| && |o| == hi - lo
    requires after == before[..lo] + o + before[hi..]
    requires before[..lo] == o1
    ensures after[..hi] == o1 + o
  {
  }

  /**
   * The globals of the interrupt path: acc_data, the six axis buffers, block_cnt
   * and fir_lpf. `calls` logs every arm_fir_f32 call.
   */
  class Pipeline {
    var accData: array<SensorData>
    var xIn: array<real>
    var yIn: array<real>
    var zIn: array<real>
    var xOut: array<real>
    var yOut: array<real>
    var zOut: array<real>
    var blockCnt: nat
    var fir: FirInstance
    ghost var calls: seq<FirCall>

    ghost function Abs(): State
      reads this, accData, xIn, yIn, zIn, xOut, yOut, zOut
    {
      State(accData[..], xIn[..], yIn[..], zIn[..], xOut[..], yOut[..], zOut[..], blockCnt, fir, calls)
    }

    /** The six sample buffers are distinct arrays and have the window's size. */
    ghost predicate Shape()
      reads this
    {
      xIn != yIn && xIn != zIn && yIn != zIn &&
      xOut != yOut && xOut != zOut && yOut != zOut &&
      xOut != xIn && xOut != yIn && xOut != zIn &&
      yOut != xIn && yOut != yIn && yOut != zIn &&
      zOut != xIn && zOut != yIn && zOut != zIn &&
      accData.Length == FRAMES_REQ &&
      xIn.Length == WINDOW_SIZE && yIn.Length == WINDOW_SIZE && zIn.Length == WINDOW_SIZE &&
      xOut.Length == WINDOW_SIZE && yOut.Length == WINDOW_SIZE && zOut.Length == WINDOW_SIZE &&
      fir.Valid() && BLOCK_SIZE <= fir.blockSize
    }

    ghost predicate Valid()
      reads this
    {
      Shape() && blockCnt < BLOCKS_PER_WINDOW
    }

    lemma ShapeIsShaped()
      requires Shape()
      ensures Shaped(Abs())
    {
    }

    /** Zero-initialised globals, then dsp_config with the coefficient table b. */
    constructor (b: seq<real>)
      requires NUM_TAPS <= |b|
      ensures Valid() && Abs() == Initial(b)
      ensures fresh(accData) && fresh(xIn) && fresh(yIn) && fresh(zIn)
      ensures fresh(xOut) && fresh(yOut) && fresh(zOut)
    {
      accData := new SensorData[FRAMES_REQ](_ => SensorData(0, 0, 0));
      xIn := new real[WINDOW_SIZE](_ => 0.0);
      yIn := new real[WINDOW_SIZE](_ => 0.0);
      zIn := new real[WINDOW_SIZE](_ => 0.0);
      xOut := new real[WINDOW_SIZE](_ => 0.0);
      yOut := new real[WINDOW_SIZE](_ => 0.0);
      zOut := new real[WINDOW_SIZE](_ => 0.0);
      blockCnt := 0;
      fir := DspConfig(b);
      calls := [];
      new;
      assert accData[..] == NoFrames();
      assert xIn[..] == Zeros() && yIn[..] == Zeros() && zIn[..] == Zeros();
      assert xOut[..] == Zeros() && yOut[..] == Zeros() && zOut[..] == Zeros();
    }

    /**
     * arm_fir_f32(&fir_lpf, src + srcOff, dst + dstOff, blockSize): filter one
     * block, advance the instance, write blockSize outputs.
     */
    method ArmFir(ghost axis: Axis, src: array<real>, srcOff: nat, dst: array<real>, dstOff: nat,
                  blockSize: nat)
      requires fir.Valid() && blockSize <= fir.blockSize && src != dst
      requires srcOff + blockSize <= src.Length && dstOff + blockSize <= dst.Length
      modifies this`fir, this`calls, dst
      ensures fir == FirStep(old(fir), src[srcOff..srcOff + blockSize]).0
      ensures dst[..] == old(dst[..dstOff]) + FirStep(old(fir), src[srcOff..srcOff + blockSize]).1
                         + old(dst[dstOff + blockSize..])
      ensures calls == old(calls) + [FirCall(axis, srcOff, dstOff, blockSize)]
    {
      ghost var before := dst[..];
      var block := src[srcOff..srcOff + blockSize];
      var (f, out) := FirStep(fir, block);
      forall k | 0 <= k < blockSize {
        dst[dstOff + k] := out[k];
      }
      assert src[srcOff..srcOff + blockSize] == block;
      assert dst[..] == before[..dstOff] + out + before[dstOff + blockSize..];
      fir := f;
      calls := calls + [FirCall(axis, srcOff, dstOff, blockSize)];
    }

    /** One of compute_fir's three loops: the five blocks of one axis. */
    method FilterAxis(ghost a: Axis, src: array<real>, dst: array<real>)
      requires fir.Valid() && BLOCK_SIZE <= fir.blockSize && src != dst
      requires src.Length == WINDOW_SIZE && dst.Length == WINDOW_SIZE
      modifies this`fir, this`calls, dst
      ensures fir == FilterBlocks(old(fir), src[..], BLOCKS_PER_WINDOW).0
      ensures dst[..] == FilterBlocks(old(fir), src[..], BLOCKS_PER_WINDOW).1
      ensures calls == old(calls) + AxisSchedule(a)
    {
      ghost var input := src[..];
      for i := 0 to BLOCKS_PER_WINDOW
        invariant src[..] == input
        invariant fir == FilterBlocks(old(fir), input, i).0
        invariant dst[..i * BLOCK_SIZE] == FilterBlocks(old(fir), input, i).1
        invariant calls == old(calls) + AxisSchedule(a)[..i]
      {
        ghost var before := dst[..];
        ArmFir(a, src, i * BLOCK_SIZE, dst, i * BLOCK_SIZE, BLOCK_SIZE);
        FilterLoopStep(old(fir), input, i, before, dst[..]);
        assert AxisSchedule(a)[..i + 1] == AxisSchedule(a)[..i] + [AxisSchedule(a)[i]];
      }
      assert dst[..] == dst[..WINDOW_SIZE];
      assert AxisSchedule(a)[..BLOCKS_PER_WINDOW] == AxisSchedule(a);
    }

    /** compute_fir: x, then y, then z, through the one instance; then block_cnt = 0. */
    method ComputeFir()
      requires Shape()
      modifies this`fir, this`calls, this`blockCnt, xOut, yOut, zOut
      ensures Valid()
      ensures Abs() == ComputeFirStep(old(Abs()))
    {
      ShapeIsShaped();
      FilterAxis(X, xIn, xOut);
      FilterAxis(Y, yIn, yOut);
      FilterAxis(Z, zIn, zOut);
      blockCnt := 0;
    }

    /** bmi160_extract_accel: the driver fills acc_data[..n] with the n frames it extracted. */
    method ExtractAccel(frames: seq<SensorData>)
      requires Valid() && |frames| <= FRAMES_REQ
      modifies accData
      ensures Valid()
      ensures accData[..] == frames + old(accData[|frames|..])
    {
      forall k | 0 <= k < |frames| {
        accData[k] := frames[k];
      }
      assert accData[..] == frames + old(accData[|frames|..]);
    }

    /**
     * The copy loop of get_bmi160_fifo_data: for i < n, frame i of acc_data goes
     * to index n * block_cnt + i of each axis buffer.
     */
    method CopyToAxisBuffers(n: nat)
      requires xIn != yIn && xIn != zIn && yIn != zIn && accData.Length == FRAMES_REQ
      requires xIn.Length == WINDOW_SIZE && yIn.Length == WINDOW_SIZE && zIn.Length == WINDOW_SIZE
      requires blockCnt < BLOCKS_PER_WINDOW && n <= FRAMES_REQ
      modifies xIn, yIn, zIn
      ensures xIn[..] == Scatter(old(xIn[..]), AxisValues(accData[..n], X), DemuxBase(n, blockCnt))
      ensures yIn[..] == Scatter(old(yIn[..]), AxisValues(accData[..n], Y), DemuxBase(n, blockCnt))
      ensures zIn[..] == Scatter(old(zIn[..]), AxisValues(accData[..n], Z), DemuxBase(n, blockCnt))
    {
      DemuxInBounds(n, blockCnt);
      var base := n * blockCnt;
      ghost var frames := accData[..n];
      ghost var x0, y0, z0 := xIn[..], yIn[..], zIn[..];
      ghost var xs, ys, zs := AxisValues(frames, X), AxisValues(frames, Y), AxisValues(frames, Z);
      for i := 0 to n
        invariant xIn[..] == Scatter(x0, xs[..i], base)
        invariant yIn[..] == Scatter(y0, ys[..i], base)
        invariant zIn[..] == Scatter(z0, zs[..i], base)
      {
        FrameStep(x0, y0, z0, frames, base, i);
        StoreFrame(i, base + i);
      }
      assert xs[..n] == xs && ys[..n] == ys && zs[..n] == zs;
    }

    /** The body of the copy loop: the three axes of acc_data[i] into the input buffers at index j. */
    method StoreFrame(i: nat, j: nat)
      requires xIn != yIn && xIn != zIn && yIn != zIn
      requires i < accData.Length && j < xIn.Length && j < yIn.Length && j < zIn.Length
      modifies xIn, yIn, zIn
      ensures xIn[..] == old(xIn[..])[j := Component(accData[i], X)]
      ensures yIn[..] == old(yIn[..])[j := Component(accData[i], Y)]
      ensures zIn[..] == old(zIn[..])[j := Component(accData[i], Z)]
    {
      xIn[j] := accData[i].x as real;
      yIn[j] := accData[i].y as real;
      zIn[j] := accData[i].z as real;
    }

    /** The body of get_bmi160_fifo_data up to the block check: extraction, the copy loop, block_cnt++. */
    method DemuxFrames(frames: seq<SensorData>)
      requires Valid() && |frames| <= FRAMES_REQ
      modifies this`blockCnt, accData, xIn, yIn, zIn
      ensures Shape()
      ensures Abs() == Demux(old(Abs()), frames)
    {
      ShapeIsShaped();
      ghost var s0 := Abs();
      ExtractAccel(frames);
      assert accData[..|frames|] == frames;
      CopyToAxisBuffers(|frames|);
      blockCnt := blockCnt + 1;
    }

    /**
     * get_bmi160_fifo_data, given the frames the driver extracted: demultiplex,
     * and when block_cnt reaches 5 run compute_fir.
     */
    method Drain(frames: seq<SensorData>)
      requires Valid() && |frames| <= FRAMES_REQ
      modifies this`fir, this`calls, this`blockCnt, accData, xIn, yIn, zIn, xOut, yOut, zOut
      ensures Valid()
      ensures Abs() == DrainStep(old(Abs()), frames)
    {
      ShapeIsShaped();
      DemuxFrames(frames);
      ShapeIsShaped();
      if blockCnt == BLOCKS_PER_WINDOW {
        ComputeFir();
      }
    }
  }
}
