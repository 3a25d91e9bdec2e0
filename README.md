# BMI160 FIFO → FIR pipeline on nRF, modelled in Dafny

The firmware in `6draft.c` reads the accelerometer of a BMI160 over SPI and low-pass filters it. It works in three layers, and the model has one module for each:

- **Register transport** (`BusTransport`, `bus_transport.dfy`). The sensor driver is given two bus callbacks.
  - A register write sends one SPI frame: the register address with bit 7 cleared, then the payload.
  - A register read sends the address with bit 7 set and clocks `len + 1` bytes into the 500-byte `SPI_RX_Buffer`. It then copies every byte but the first into the caller's buffer.
  - The `SpiBus` class holds that receive buffer, the `spi_xfer_done` flag and a log of the frames sent.
- **Filter** (`FirFilter`, `fir_filter.dfy`). One `arm_fir_instance_f32`, `fir_lpf`, has 58 taps and a block size of 28. Its state array holds 28 + 58 − 1 = 85 samples.
  - One `arm_fir_f32` call is the value-level step `FirStep`. It returns the outputs of a block and the instance with its delay line advanced.
  - As in CMSIS-DSP, the coefficient table is applied time-reversed: output `n` is `Σ pCoeffs[k] * w[k]` over the window `w` of the 58 inputs ending at `x[n]`, oldest first. So `pCoeffs[0]` multiplies the oldest sample. From the cleared state that `dsp_config` leaves, the filter is the difference equation `y[n] = Σ_k h[k] * x[n − k]` with `h[k] = B[57 − k]` (`ConfiguredFilterIsConvolution`).
  - `FilterBlocks` is a run of calls with the instance threaded from one call to the next.
- **Interrupt path** (`FifoPipeline`, `fifo_pipeline.dfy`). Each FIFO-watermark interrupt runs one drain (`get_bmi160_fifo_data`), which does three things:
  1. It copies the `n` extracted frames into the three 140-sample axis input buffers, frame `i` going to index `n * block_cnt + i`.
  2. It increments `block_cnt`.
  3. When the counter reaches 5, it runs `compute_fir`. That makes fifteen filter calls, x0..x4 then y0..y4 then z0..z4, all through the one shared instance, and resets the counter.

  The `Pipeline` class holds these globals as arrays and fields. Its methods are proved against the value-level functions `Demux`, `DrainStep` and `ComputeFirStep` over the abstract `State`.

`types.dfy` (`Types`) holds the byte, 16-bit and option types the modules share.

Where the model has to decide something the code leaves open:

- **The frame count.** The copy loop's bound `gyro_frames_req` (`6draft.c:207`) is not declared anywhere in the file. The model bounds the loop by the frame count `acc_frames_req` that the extraction reports. That matches the comment and the stride on line 208.
- **The buffer globals.** `acc_x_in_buf` … `acc_z_out_buf` and `block_cnt` are not declared in the file either. The capacity of 140 is taken from the five 28-sample blocks that `compute_fir` reads and writes (`6draft.c:228-241`).

Three defects in the source:

- **The stride.** As written, the stride on line 208 is the reported count `acc_frames_req`, not `BLOCK_SIZE`. When every drain reports 28 frames, the five drains of a window tile `[0, 140)` in arrival order (`FullDrainsFillWindow`). A shorter drain after a full one instead overwrites the tail of the previous block (`ShortDrainOverlapsPreviousBlock`). The interrupt path keeps the stride as written. The intended stride is modelled beside it, and both are listed under "## Findings".
- **Filter initialisation.** `dsp_config` (`6draft.c:35-39`) is defined but never called, not by `main` (`6draft.c:294-314`) nor anywhere else. As written, every fifth drain runs `arm_fir_f32` on the zero, uninitialised `fir_lpf`. The model's `Initial` state and `Pipeline` constructor apply `dsp_config`, as the filter code evidently expects (see "## Left out").
- **The shared instance.** `compute_fir`'s own comment says that each axis is processed on its own (`6draft.c:226`), yet all fifteen calls go through the one `fir_lpf` (`6draft.c:229`, `234`, `239`). Its delay line carries over from the end of x into y, from y into z, and from z into the next window's x. `WindowIsOneStream` proves that a window is therefore filtered exactly as the one stream `x ++ y ++ z`. So each of the first 57 outputs of y still draws on x's last samples: output 0 of y is the tap sum over `x[83..140]` followed by `y[0]` (`SharedInstanceCarriesXIntoY`). The interrupt path keeps the shared instance as written. An instance per axis is modelled beside it, and both are listed under "## Findings".

## Model

| member | source | states |
|---|---|---|
| BusTransport.WriteCommand | 6draft.c:101-102 | The write command byte has bit 7 clear, and its low seven bits are those of the register address. |
| BusTransport.ReadCommand | 6draft.c:122 | The read command byte has bit 7 set, and its low seven bits are those of the register address. |
| BusTransport.CommandsDifferOnlyInBit7 | 6draft.c:122 | For every address, the read command (line 122) and the write command (line 102) differ in bit 7 only: their xor is 0x80, and setting bit 7 of the write command gives the read command. |
| BusTransport.WriteFrame | 6draft.c:97-106 | The write frame is `cnt + 1` bytes long. Byte 0 is `addr & 0x7F`, and byte `k + 1` is payload byte `k`. |
| BusTransport.WriteFrameRoundTrip | 6draft.c:101-108 | The sensor decodes a write frame as a write of exactly the payload to register `addr & 0x7F`. |
| BusTransport.ReadFrame | 6draft.c:122-128 | A read sends one byte, the read command. |
| BusTransport.ReadFrameRoundTrip | 6draft.c:122-128 | The sensor decodes a read frame as a read of register `addr & 0x7F`. |
| BusTransport.ReadPayload | 6draft.c:131-133 | The bytes a read returns are `len` long, and byte `k` is received byte `k + 1`. The receive window must hold `len + 1` bytes. |
| BusTransport.ReadResponseRoundTrip | 6draft.c:128-133 | A response made of one address-phase byte followed by the register contents returns exactly those contents. |
| BusTransport.SpiBus.constructor | 6draft.c:56-58 | Creates a 500-byte receive buffer with the flag clear and no frames sent. |
| BusTransport.SpiBus.EventHandler | 6draft.c:61-64 | The completion callback raises `spi_xfer_done`. |
| BusTransport.SpiBus.Transfer | 6draft.c:108-110 | A transfer needs the flag lowered beforehand, and it ends with the flag raised. The transmit frame is appended to the MOSI log. The `rxLen` response bytes fill the start of `SPI_RX_Buffer`, and the rest of the buffer is unchanged. |
| BusTransport.SpiBus.BusWrite | 6draft.c:92-113 | Returns 0. It sends exactly one frame, `WriteFrame(addr, reg_data[..cnt])`, and leaves the receive buffer unchanged. |
| BusTransport.SpiBus.BusRead | 6draft.c:118-136 | Returns 0. It needs `len + 1 <= 500`, and it sends exactly `ReadFrame(addr)`. The receive buffer holds the `len + 1` response bytes, with the rest unchanged. `reg_data[..len]` is `ReadPayload(response, len)`, and nothing at or beyond `len` is written. |
| FirFilter.FirInit | 6draft.c:37-38 | `arm_fir_init_f32` binds the first `numTaps` coefficients and records the block size and state length. It clears the delay line and yields a valid instance. |
| FirFilter.DspConfig | 6draft.c:25-39 | `dsp_config` gives 58 taps, block size 28 and a state array of 85 = 28 + 58 − 1. The coefficients are the first 58 of B, and the delay line is zero. |
| FirFilter.FirStep | 6draft.c:229-230 | One `arm_fir_f32` call returns one output per input sample and leaves a valid instance with the same taps, coefficients and sizes. |
| FirFilter.WindowIsConvolution | 6draft.c:229-230 | Over a zero delay line, the time-reversed tap sum over the window ending at input `n` equals the difference equation `Σ_{k ≤ n} h[k] * x[n − k]` with `h = Reversed(coeffs)`. Inputs before the first sample count as zero. |
| FirFilter.FirStepFromRest | 6draft.c:229-230 | From a cleared delay line, output `n` of one call equals `Convolve(Reversed(coeffs), block, n)`, the difference equation. |
| FirFilter.ConfiguredFilterIsConvolution | 6draft.c:228-231 | After `dsp_config`, output `n` of `k` block calls is the difference equation over the whole input with `h[k] = B[57 − k]`. Block boundaries do not show. |
| FirFilter.SymmetricTableIsDirect | 6draft.c:228-231 | When `B[..58]` is symmetric, the reversal is invisible, and output `n` is `Σ_k B[k] * x[n − k]`. |
| FirFilter.StepSplit | 6draft.c:228-231 | Filtering `a` and then `b`, with the instance carried over, gives the same outputs and the same final instance as filtering `a ++ b` in one call. |
| FirFilter.FilterBlocks | 6draft.c:228-231 | `k` consecutive 28-sample calls yield `28 k` outputs and keep the instance valid and its sizes unchanged. |
| FirFilter.BlockwiseIsOnePass | 6draft.c:228-231 | Filtering `k` blocks call by call is exactly one pass over the first `28 k` samples. |
| FirFilter.DotOfConstant | 6draft.c:29-30 | On a constant input `v`, the tap sum equals `v` times the sum of the coefficients. |
| FirFilter.UnityGainSteadyState | 6draft.c:29-30 | With coefficients summing to 1, a constant input `v` (delay line and block) gives the output `v` at every sample. |
| FifoPipeline.Scatter | 6draft.c:207-211 | Writing a run of values into an axis buffer keeps the buffer's length. |
| FifoPipeline.ScatterContents | 6draft.c:207-211 | Writing `vals` at `base` keeps the buffer's length. Positions `base + i` hold `vals[i]`, and every other position keeps its value. |
| FifoPipeline.WindowSchedule | 6draft.c:225-241 | `compute_fir` makes 15 calls. |
| FifoPipeline.WindowScheduleTiles | 6draft.c:226-241 | Call `j` filters axis x, y or z for `j` < 5, < 10 or < 15. It reads and writes the same range `[28 (j % 5), 28 (j % 5) + 28)`. Per axis, the five ranges tile `[0, 140)` with no overlap: call `j` covers position `p` iff `j % 5 == p / 28`. |
| FifoPipeline.Initial | 6draft.c:26-39 | The zero-initialised globals plus `dsp_config` form a ready state with the counter at 0 and no filter calls. The firmware never calls `dsp_config`; see "## Left out". |
| FifoPipeline.ComputeFirStep | 6draft.c:225-243 | `compute_fir` resets the counter to 0 and appends exactly the 15-call schedule. It leaves `acc_data` and the input buffers unchanged, sizes intact. |
| FifoPipeline.WindowIsOneStream | 6draft.c:225-241 | Because `fir_lpf` is shared, `out_x ++ out_y ++ out_z` is one filter pass over `in_x ++ in_y ++ in_z`. The instance ends where that pass leaves it. |
| FifoPipeline.SharedInstanceCarriesXIntoY | 6draft.c:229-235 | With the 58 taps of `dsp_config`, output 0 of the y window is the tap sum over the last 57 samples of the x window followed by the first y sample. |
| FifoPipeline.IntendedFilterWindow | 6draft.c:225-241 | `compute_fir` with one instance per axis, as the comment at line 226 describes: each axis's five blocks go through that axis's own instance. The instances stay valid and the output windows keep their size. |
| FifoPipeline.IntendedWindowIsAxisPass | 6draft.c:226-231 | With an instance per axis, one window's outputs for an axis, and that axis's instance afterwards, are one filter pass over that axis's input window alone. |
| FifoPipeline.IntendedAxisIsOwnStream | 6draft.c:226-241 | With an instance per axis, the outputs of an axis over two consecutive windows are one filter pass over that axis's two input windows. No sample of another axis enters. |
| FifoPipeline.IntendedFromConfigIsConvolution | 6draft.c:226-241 | With each axis's instance started from `dsp_config`, output `n` of an axis over two windows is the difference equation over that axis's own samples, with `h[k] = B[57 − k]`. |
| FifoPipeline.DemuxBase | 6draft.c:208 | The index of a drain's first sample, `acc_frames_req * block_cnt`, is at most `28 * block_cnt` for at most 28 frames. |
| FifoPipeline.DemuxInBounds | 6draft.c:200-210 | With at most 28 frames and a counter of at most 4, every index the copy loop writes is below 140. |
| FifoPipeline.DemuxAt | 6draft.c:204-212 | The copy loop and the increment, written for a given first index: the counter goes up by one and the frames are stored at the head of `acc_data`. The outputs, the filter and the call log are unchanged. `Demux` and `IntendedDemux` differ only in the first index they pass. |
| FifoPipeline.Demux | 6draft.c:197-213 | The copy loop and the increment raise the counter by one and store the frames at the head of `acc_data`. They leave the outputs, the filter and the call log unchanged. |
| FifoPipeline.DrainStep | 6draft.c:197-220 | After a drain the counter is `(block_cnt + 1) % 5`. On the first four drains no filtering happens. On the fifth, exactly the 15-call schedule runs. |
| FifoPipeline.DemuxContents | 6draft.c:207-211 | For a drain of `n` frames at counter `b`, `n b + n <= 140`. Each axis buffer holds frame `i`'s value at `n b + i`, and every other position is unchanged. |
| FifoPipeline.Run | 6draft.c:247-250 | Every interrupt runs one drain, and the state stays ready, with the counter in [0, 4]. |
| FifoPipeline.CounterAfterDrains | 6draft.c:212-218 | After `k` drains from counter `b`, the counter is `(b + k) % 5`. `compute_fir` has run `(b + k) / 5` times, that is on exactly every fifth drain, with 15 calls each. |
| FifoPipeline.FullDrainsFillWindow | 6draft.c:200-213 | When every drain reports 28 frames and `b + k <= 5`, `k` drains from counter `b` leave each axis buffer as `Filled`. That is the old buffer with positions `[28 b, 28 (b + k))` replaced by the drains' samples, laid end to end in arrival order (`WindowValues`), and every other position unchanged. |
| FifoPipeline.FilledCons | 6draft.c:207-212 | Filling from block `b` is the same as placing the first drain's 28 samples at `[28 b, 28 b + 28)` and then filling the rest from block `b + 1`. When `b + 1 = 5` nothing is left to fill, so wrapping the counter to 0 changes nothing (`FilledStep`). |
| FifoPipeline.ShortDrainOverlapsPreviousBlock | 6draft.c:204-210 | After a full drain, a drain of `0 < n < 28` frames writes at `n .. 2n − 1`. That is inside the first block, not at 28. |
| FifoPipeline.IntendedDemux | 6draft.c:207-212 | The copy loop with the stride `BLOCK_SIZE * block_cnt` that `compute_fir`'s block layout calls for. It counts the block and stores the frames at the head of `acc_data`. |
| FifoPipeline.IntendedDemuxContents | 6draft.c:207-211 | With the intended stride, the drain at counter `b` writes frame `i` at `28 b + i`. It writes nothing outside `[28 b, 28 b + n)`, which lies inside block `b` and below 140. |
| FifoPipeline.IntendedKeepsEarlierBlock | 6draft.c:207-211 | With the intended stride, the next drain never overwrites the previous drain's samples, whatever the two counts. |
| FifoPipeline.FullDrainStrideAgrees | 6draft.c:200-211 | On a full drain of 28 frames, the as-written and the intended strides give the same state. |
| FifoPipeline.Pipeline.constructor | 6draft.c:26-58 | Creates fresh zeroed buffers, applies `dsp_config` (a call the firmware never makes; see "## Left out") and yields `Initial(B)`. |
| FifoPipeline.Pipeline.ArmFir | 6draft.c:229-230 | One `arm_fir_f32` call on arrays: the instance becomes the step's, `dst[off .. off + 28)` gets the step's outputs and nothing else in `dst` changes. |
| FifoPipeline.Pipeline.FilterAxis | 6draft.c:228-231 | The five-call loop of one axis leaves the instance and the output array as `FilterBlocks(fir, in, 5)`. It logs that axis's five calls. |
| FifoPipeline.Pipeline.ComputeFir | 6draft.c:225-243 | The three loops and the reset take the abstract state to `ComputeFirStep` of the old state. |
| FifoPipeline.Pipeline.ExtractAccel | 6draft.c:204 | The driver's extraction stores the reported frames at the head of `acc_data`. The rest of `acc_data` is unchanged. |
| FifoPipeline.Pipeline.CopyToAxisBuffers | 6draft.c:207-211 | The copy loop leaves each axis array equal to `Scatter` of its old contents with that axis of `acc_data[..n]` at `n * block_cnt`. |
| FifoPipeline.Pipeline.StoreFrame | 6draft.c:208-210 | The loop body: the x, y and z of `acc_data[i]` go to index `j` of the three input arrays, and no other element of them changes. |
| FifoPipeline.Pipeline.DemuxFrames | 6draft.c:197-213 | Extraction, the copy loop and `block_cnt++` take the abstract state to `Demux` of the old one. |
| FifoPipeline.Pipeline.Drain | 6draft.c:197-220 | `get_bmi160_fifo_data` takes the abstract state to `DrainStep` of the old one and keeps the counter in [0, 4]. |

## Findings

| source | as written | input that shows it | evidently intended | confidence | as-written member | corrected member |
|---|---|---|---|---|---|---|
| 6draft.c:208-210 | frame `i` is stored at `acc_frames_req * block_cnt + i`, the stride being the count the driver reports | a drain of 28 frames, then one of 10: the second writes indices 10..19 and overwrites samples 10..19 of the first block, instead of writing 28..37 | index `BLOCK_SIZE * block_cnt + i`, so that drain `b` fills block `b`, the block `compute_fir` reads at `BLOCK_SIZE * b` | not executed | FifoPipeline.ShortDrainOverlapsPreviousBlock | FifoPipeline.IntendedKeepsEarlierBlock |
| 6draft.c:226-239 | all fifteen `arm_fir_f32` calls share `fir_lpf`, whose delay line runs from the end of x into y, from y into z and from z into the next window's x | any window: with 58 taps, output 0 of y is the tap sum over `x[83..140]` and `y[0]` (`FifoPipeline.SharedInstanceCarriesXIntoY`), not over `y[0]` and y's own history | each axis processed on its own, as the comment at line 226 says: one instance per axis, so that each axis's outputs are one pass over that axis alone | not executed | FifoPipeline.WindowIsOneStream | FifoPipeline.IntendedAxisIsOwnStream |

`FifoPipeline.IntendedDemux` is the corrected copy loop, and `FifoPipeline.IntendedDemuxContents` proves that each of its drains stays inside its own block. `FifoPipeline.FullDrainStrideAgrees` proves the two strides agree whenever the driver reports the full 28 frames. The interrupt path (`DrainStep`, `Pipeline.Drain`) keeps the stride as written, so it stays a model of the firmware. `FullDrainsFillWindow` describes its behaviour on full drains, where the two coincide.

`FifoPipeline.IntendedFilterWindow` is `compute_fir` with an instance per axis. `FifoPipeline.IntendedWindowIsAxisPass` and `FifoPipeline.IntendedAxisIsOwnStream` prove that each axis is then filtered as its own stream across windows. From `dsp_config`, `FifoPipeline.IntendedFromConfigIsConvolution` proves it is the difference equation over that axis alone. The interrupt path (`ComputeFirStep`, `Pipeline.ComputeFir`) keeps the single shared instance, so it stays a model of the firmware.

## Left out

- Float32 arithmetic: `arm_fir_f32` is modelled as an ideal direct-form FIR over `real`. Rounding and the library's internal state layout beyond the delay line are not modelled.
- The coefficient table `B` of `fdacoefs.h` is a parameter. `fdacoefs.h`, `arm_math.h` and `tmwtypes.h` are not part of this model.
- The BMI160 driver itself is not modelled. That covers `bmi160_get_fifo_data`, the frame parsing in `bmi160_extract_accel`, `bmi160_init` and the configuration calls. A drain takes the extracted frames as its input, at most 28, as `acc_data[28]` requires. The `sensortime` field of a frame is not modelled.
- `sensor_config`, `spi_config`, `config_gpio`, `bsp_board_init` and `main`'s `__WFI` loop are not modelled. They are hardware configuration with no state the core reads.
- The wait loops on `spi_xfer_done`: the model's transfer completes when called, with its completion callback run inside it. Concurrency between the interrupt and the SPI event is not modelled.
- The driver's status codes are not modelled. `get_bmi160_fifo_data` returns the result of `bmi160_extract_accel` (`6draft.c:204`, `219`), and `interrupt_handler` discards it (`6draft.c:249`). `Drain` therefore returns nothing. The bus callbacks return their local `error`, which is always 0 (`6draft.c:96`, `121`), and `BusWrite` and `BusRead` return 0.
- `hw_addr` is unused by the source's bus callbacks and is unused in the model.
- FifoPipeline.Pipeline.Drain: it requires the driver to report at most 28 frames. The source does not check this; it relies on `acc_data[28]` holding the frames.
- BusTransport.SpiBus.BusRead: it requires `len + 1 <= 500`. For larger reads, the copy loop reads `SPI_RX_Buffer[stringpos + 1]` past index 499 (`6draft.c:133`). Whether the transfer also writes past the buffer depends on `nrf_drv_spi_transfer`, which is not part of this model. Neither overflow is covered.
- FifoPipeline.Pipeline.constructor: it applies `dsp_config`, a call the firmware never makes (`6draft.c:35-39` is called nowhere, including `main` at `6draft.c:294-314`). `FifoPipeline.Initial` does the same. The model therefore does not cover the firmware as written, where `compute_fir` runs on the zero, uninitialised `fir_lpf`. What `arm_fir_f32` does with zero taps and no state buffer is up to the library, which is not part of this model.
- The coefficient table `B` is handed to `arm_fir_init_f32` as `pCoeffs` unchanged (`6draft.c:37`). The library applies it time-reversed, so the filter is `h[k] = B[57 − k]`. That is the textbook `Σ B[k] * x[n − k]` only when `B` is symmetric (`SymmetricTableIsDirect`). Whether the table in `fdacoefs.h` is symmetric cannot be decided here.
