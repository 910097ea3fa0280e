# Rotary encoder decoder

A model of `RotaryEncoder`, a polled quadrature-encoder decoder for Arduino.
The object keeps the ids of its clock (CLK) and data (DT) pins, the clock level
it saw on the previous poll, and a signed 16-bit step counter. It has four
operations. The constructor binds the pins and zeroes the counter. `update()`
detects a LOW-to-HIGH edge on the clock line and, on such an edge, counts one
step up or down depending on the data line. `getChange()` reports the counter
and zeroes it. `reset()` zeroes it.

The model is functional. `RotaryEncoder.Encoder` is an immutable record of
the four fields. Each operation is a pure function on it. The two
`digitalRead` calls of a poll become the boolean parameters `clk` and `dt` of
`Update`, where `true` is HIGH. `Sampling.Run` folds `Update` over a list of
readings.

Files:

- `fixed_width.dfy`: module `FixedWidth`, the `int16_t` range and wrap-around.
- `rotary_encoder.dfy`: module `RotaryEncoder`, the record, the four operations and single-call lemmas.
- `sampling.dfy`: module `Sampling`, sequences of polls, the fold lemma, pulses and drains.

Decisions that follow the code:

- **Direction.** The comment at RotaryEncoder.h:16-17 says that DT differing
  from CLK means counter-clockwise and "so decrement". The code on the next
  line increments in that case. The model follows the code: on a rising edge,
  DT LOW counts up and DT HIGH counts down.
- **Uninitialised clock level.** The constructor never sets `lastClkState`.
  `Construct` therefore takes the starting level as a parameter,
  `indeterminate`, and its contract says nothing about it.
  `FirstSampleDependsOnStartLevel` shows that the very first poll can count a
  spurious step when its clock reads HIGH. `FirstLowSampleSeedsLevel` shows
  that a LOW first poll removes the dependence.
- **16-bit counter.** `delta++` and `delta--` on the `int16_t` counter are
  modelled as wrapping modulo 2^16 (`FixedWidth.Wrap`) at both limits. What
  the C++ code does there depends on the board. Where `int` is 32 bits wide
  (ARM, ESP), the increment happens in `int` and narrowing the result back to
  `int16_t` is implementation-defined before C++20 and modular since. Where
  `int` is itself 16 bits wide (8-bit AVR), `delta++` at 32767 is a
  signed-integer overflow, which is undefined behaviour in every C++
  standard. The model picks reduction modulo 2^16 in both cases. No
  saturation is claimed.

## Model

| member | source | states |
|---|---|---|
| FixedWidth.Wrap | RotaryEncoder.h:19-21 | the 16-bit result is congruent to the exact sum modulo 2^16 and equals it when the sum is in range |
| FixedWidth.WrapAddWrapped | RotaryEncoder.h:19-21 | wrapping after every step gives the same counter as wrapping once at the end |
| RotaryEncoder.Construct | RotaryEncoder.h:3-7 | after construction the counter is 0 and the pin ids are the arguments; nothing is promised about the remembered clock level |
| RotaryEncoder.Update | RotaryEncoder.h:9-25 | the remembered level becomes the sampled clock level; pins never change; the counter is untouched unless the edge is LOW-to-HIGH; on such an edge it moves one step up (mod 2^16) for data LOW and one step down for data HIGH |
| RotaryEncoder.GetChange | RotaryEncoder.h:27-31 | returns the prior counter and leaves it at 0, with the clock level and pins unchanged |
| RotaryEncoder.Reset | RotaryEncoder.h:33-35 | the counter becomes 0 and nothing else changes |
| RotaryEncoder.UpdateCountsExactlyRisingEdges | RotaryEncoder.h:15 | a poll moves the counter if and only if it sees a rising clock edge |
| RotaryEncoder.UpdateMovesAtMostOne | RotaryEncoder.h:15-23 | away from the 16-bit limits one poll changes the counter by at most 1 in absolute value |
| RotaryEncoder.UpdateWrapsAtLimits | RotaryEncoder.h:19-21 | an up-step at 32767 gives -32768 and a down-step at -32768 gives 32767 |
| RotaryEncoder.UpdateIgnoresDataOffEdge | RotaryEncoder.h:15-18 | the data level is only read on a rising edge: otherwise the resulting state does not depend on it |
| RotaryEncoder.UpdateRepeatedLevelCountsOnce | RotaryEncoder.h:13-15 | sampling the same clock level twice in a row never counts on the second poll |
| RotaryEncoder.FirstSampleDependsOnStartLevel | RotaryEncoder.h:3-15 | a HIGH first poll after construction counts a step if the unset level happened to be LOW and not if it was HIGH |
| RotaryEncoder.FirstLowSampleSeedsLevel | RotaryEncoder.h:11-24 | a LOW first poll leaves the same state whatever the unset level was, with the counter still 0 |
| RotaryEncoder.GetChangeTwice | RotaryEncoder.h:27-31 | two drains in a row return the value and then 0, and the second leaves the state unchanged |
| RotaryEncoder.GetChangeLeavesResetState | RotaryEncoder.h:27-35 | the state after a drain is the state after a reset |
| RotaryEncoder.ResetThenGetChange | RotaryEncoder.h:27-35 | a reset followed by a drain returns 0, and reset is idempotent |
| Sampling.Run | RotaryEncoder.h:9-25 | polling a list of readings keeps the pins and leaves the remembered level at the last reading's clock level (or unchanged for no readings) |
| Sampling.RunSnoc | RotaryEncoder.h:9-25 | one more reading is one more poll after the others |
| Sampling.RunAppend | RotaryEncoder.h:9-25 | polling two lists in turn equals polling their concatenation |
| Sampling.UpdateAddsStep | RotaryEncoder.h:15-23 | one poll adds its step (+1, -1 or 0, decided by the previous level and the reading) to the counter modulo 2^16 |
| Sampling.RunCountsRisingEdges | RotaryEncoder.h:9-25 | after any list of readings the counter is the starting counter plus the rising edges with data LOW minus the rising edges with data HIGH, modulo 2^16 |
| Sampling.EveryRisingEdgeCountsOnce | RotaryEncoder.h:15-22 | every rising edge in a list of readings is counted exactly once, either as a data-LOW edge or as a data-HIGH edge, and there are at most as many edges as readings |
| Sampling.HoldingLevelKeepsCount | RotaryEncoder.h:13-15 | readings that all repeat the remembered clock level never change the counter |
| Sampling.NoRisingEdgeKeepsCount | RotaryEncoder.h:15 | readings without any rising edge never change the counter |
| Sampling.PulseMovesOneStep | RotaryEncoder.h:13-24 | a full LOW, HIGH, LOW pulse moves the counter by exactly one step, never two, from any state |
| Sampling.PulsesMoveNSteps | RotaryEncoder.h:9-25 | n pulses move the counter by n steps, up for data LOW and down for data HIGH |
| Sampling.TenPulsesDrainTen | RotaryEncoder.h:9-31 | ten data-LOW pulses after construction drain as 10; ten data-HIGH pulses drain as -10 |
| Sampling.RisingEdgeScenario | RotaryEncoder.h:9-31 | after construction, a LOW poll then a HIGH poll drains as +1 for data LOW and -1 for data HIGH, and the counter is 0 afterwards |
| Sampling.DrainBetweenBatchesLosesNothing | RotaryEncoder.h:9-31 | draining between two batches of polls reports values that add up (mod 2^16) to a single drain after both, and leaves the same state |

## Left out

- `pinMode` calls in the constructor (RotaryEncoder.h:5-6): hardware configuration with no effect on the object's state.
- `digitalRead` (RotaryEncoder.h:11, 18): hardware input, replaced by the `clk` and `dt` parameters of `Update`. The model passes the data level on every poll; the code reads it only on a rising edge, and `UpdateIgnoresDataOffEdge` shows the value is unused otherwise.
- Concurrency between `update()` and `getChange()` (interrupt or thread races on the counter): the code has no locking, and each operation is modelled as one atomic step.
- Polling rate, missed pulses and contact bounce: physical timing, not code behaviour.
- FixedWidth.Wrap: the counter's behaviour past its limits is not fully defined by C++. With a 32-bit `int`, narrowing the result to `int16_t` is implementation-defined before C++20 (modular since). With a 16-bit `int` (AVR), the overflow at RotaryEncoder.h:19 and 21 is undefined behaviour. The model chooses reduction modulo 2^16 in every case.
