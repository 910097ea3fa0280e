/**
  Sequences of sampling calls. `Run` feeds a list of (clock, data) readings
  through `Update`; the lemmas compare the counter it leaves with an
  independent count of the rising edges in the list.
*/
module Sampling {
  import opened FixedWidth
  import opened RotaryEncoder

  /** The two levels read during one sampling call. */
  datatype Sample = Sample(clk: bool, dt: bool)

  /** The state after sampling `xs` in order, starting from `s`. */
  function Run(s: Encoder, xs: seq<Sample>): (r: Encoder)
    ensures r.clkPin == s.clkPin && r.dtPin == s.dtPin
    ensures r.lastClk == if |xs| == 0 then s.lastClk else xs[|xs| - 1].clk
    decreases |xs|
  {
    if |xs| == 0 then s else Run(Update(s, xs[0].clk, xs[0].dt), xs[1..])
  }

  /** The clock level seen just before sample `i`, given the level `init` remembered at the start. */
  function PrevClk(init: bool, xs: seq<Sample>, i: nat): bool
    requires i < |xs|
  {
    if i == 0 then init else xs[i - 1].clk
  }

  predicate RisingAt(init: bool, xs: seq<Sample>, i: nat)
    requires i < |xs|
  {
    RisingEdge(PrevClk(init, xs, i), xs[i].clk)
  }

  /** Number of rising edges in `xs` read with the data line LOW. */
  function RisesDataLow(init: bool, xs: seq<Sample>): nat
    decreases |xs|
  {
    if |xs| == 0 then 0
    else
      var k := |xs| - 1;
      RisesDataLow(init, xs[..k]) + (if RisingAt(init, xs, k) && !xs[k].dt then 1 else 0)
  }

  /** Number of rising edges in `xs` read with the data line HIGH. */
  function RisesDataHigh(init: bool, xs: seq<Sample>): nat
    decreases |xs|
  {
    if |xs| == 0 then 0
    else
      var k := |xs| - 1;
      RisesDataHigh(init, xs[..k]) + (if RisingAt(init, xs, k) && xs[k].dt then 1 else 0)
  }

  /** Number of rising edges in `xs`, whatever the data line read. */
  function RisingEdges(init: bool, xs: seq<Sample>): nat
    decreases |xs|
  {
    if |xs| == 0 then 0
    else
      var k := |xs| - 1;
      RisingEdges(init, xs[..k]) + (if RisingAt(init, xs, k) then 1 else 0)
  }

  /** Every rising edge is read with the data line either LOW or HIGH, so it counts exactly once. */
  lemma {:induction false} EveryRisingEdgeCountsOnce(init: bool, xs: seq<Sample>)
    ensures RisesDataLow(init, xs) + RisesDataHigh(init, xs) == RisingEdges(init, xs)
    ensures RisingEdges(init, xs) <= |xs|
    decreases |xs|
  {
    if |xs| != 0 {
      EveryRisingEdgeCountsOnce(init, xs[..|xs| - 1]);
    }
  }

  /** The net number of steps the edges in `xs` stand for. */
  function NetSteps(init: bool, xs: seq<Sample>): int {
    RisesDataLow(init, xs) - RisesDataHigh(init, xs)
  }

  /** Sampling one more reading is one more `Update` at the end. */
  lemma {:induction false} RunSnoc(s: Encoder, xs: seq<Sample>, x: Sample)
    ensures Run(s, xs + [x]) == Update(Run(s, xs), x.clk, x.dt)
    decreases |xs|
  {
    if |xs| == 0 {
      assert xs + [x] == [x];
    } else {
      assert (xs + [x])[1..] == xs[1..] + [x];
      RunSnoc(Update(s, xs[0].clk, xs[0].dt), xs[1..], x);
    }
  }

  /** Sampling two lists in turn is sampling their concatenation. */
  lemma {:induction false} RunAppend(s: Encoder, xs: seq<Sample>, ys: seq<Sample>)
    ensures Run(s, xs + ys) == Run(Run(s, xs), ys)
    decreases |xs|
  {
    if |xs| == 0 {
      assert xs + ys == ys;
    } else {
      assert (xs + ys)[1..] == xs[1..] + ys;
      RunAppend(Update(s, xs[0].clk, xs[0].dt), xs[1..], ys);
    }
  }

  /**
    The fold property: after any list of samples the counter is the starting
    counter plus the rising edges with data LOW minus those with data HIGH,
    reduced to 16 bits.
  */
  lemma {:induction false} RunCountsRisingEdges(s: Encoder, xs: seq<Sample>)
    ensures Run(s, xs).delta == Wrap(s.delta + NetSteps(s.lastClk, xs))
    decreases |xs|
  {
    if |xs| != 0 {
      var k := |xs| - 1;
      var front := xs[..k];
      assert xs == front + [xs[k]];
      RunSnoc(s, front, xs[k]);
      RunCountsRisingEdges(s, front);
      NetStepsLast(s.lastClk, xs);
      var t := Run(s, front);
      UpdateAddsStep(t, xs[k]);
      WrapAddWrapped(StepOf(t.lastClk, xs[k]), s.delta + NetSteps(s.lastClk, front));
    }
  }

  /** The step one sample contributes when the remembered level is `last`. */
  function StepOf(last: bool, x: Sample): int {
    if !RisingEdge(last, x.clk) then 0 else if x.dt then -1 else 1
  }

  lemma UpdateAddsStep(t: Encoder, x: Sample)
    ensures Update(t, x.clk, x.dt).delta == Wrap(t.delta + StepOf(t.lastClk, x))
  {
  }

  lemma NetStepsLast(init: bool, xs: seq<Sample>)
    requires |xs| > 0
    ensures NetSteps(init, xs)
         == NetSteps(init, xs[..|xs| - 1]) + StepOf(PrevClk(init, xs, |xs| - 1), xs[|xs| - 1])
  {
  }

  /** Samples that all repeat the remembered clock level leave the counter alone. */
  lemma {:induction false} HoldingLevelKeepsCount(s: Encoder, xs: seq<Sample>)
    requires forall i :: 0 <= i < |xs| ==> xs[i].clk == s.lastClk
    ensures Run(s, xs).delta == s.delta
    decreases |xs|
  {
    if |xs| != 0 {
      HoldingLevelKeepsCount(Update(s, xs[0].clk, xs[0].dt), xs[1..]);
    }
  }

  /** Both edge counts vanish exactly when the list holds no rising edge. */
  lemma {:induction false} NoRisingEdgeNoSteps(init: bool, xs: seq<Sample>)
    ensures (RisesDataLow(init, xs) == 0 && RisesDataHigh(init, xs) == 0)
        <==> (forall i :: 0 <= i < |xs| ==> !RisingAt(init, xs, i))
    decreases |xs|
  {
    if |xs| != 0 {
      var k := |xs| - 1;
      NoRisingEdgeNoSteps(init, xs[..k]);
      assert forall i :: 0 <= i < k ==> RisingAt(init, xs[..k], i) == RisingAt(init, xs, i);
    }
  }

  /** Without a rising edge the counter never moves. */
  lemma NoRisingEdgeKeepsCount(s: Encoder, xs: seq<Sample>)
    requires forall i :: 0 <= i < |xs| ==> !RisingAt(s.lastClk, xs, i)
    ensures Run(s, xs).delta == s.delta
  {
    NoRisingEdgeNoSteps(s.lastClk, xs);
    RunCountsRisingEdges(s, xs);
  }

  /** One physical detent: clock LOW, then HIGH with data `dt`, then LOW again. */
  function Pulse(dt: bool): seq<Sample> {
    [Sample(false, dt), Sample(true, dt), Sample(false, dt)]
  }

  /** A full pulse moves the counter by exactly one step, never two, whatever came before. */
  lemma PulseMovesOneStep(s: Encoder, dt: bool)
    ensures Run(s, Pulse(dt)).delta == Wrap(s.delta + (if dt then -1 else 1))
    ensures Run(s, Pulse(dt)).lastClk == false
    ensures Min < s.delta < Max ==> Run(s, Pulse(dt)).delta - s.delta in {-1, 1}
  {
  }

  /** `n` pulses in a row, all read with the same data level. */
  function Pulses(n: nat, dt: bool): seq<Sample>
  {
    if n == 0 then [] else Pulses(n - 1, dt) + Pulse(dt)
  }

  /** `n` pulses move the counter by `n` steps, up for data LOW and down for data HIGH. */
  lemma {:induction false} PulsesMoveNSteps(s: Encoder, n: nat, dt: bool)
    ensures Run(s, Pulses(n, dt)).delta == Wrap(s.delta + (if dt then -(n as int) else n))
  {
    if n > 0 {
      PulsesMoveNSteps(s, n - 1, dt);
      RunAppend(s, Pulses(n - 1, dt), Pulse(dt));
      var t := Run(s, Pulses(n - 1, dt));
      PulseMovesOneStep(t, dt);
      var step := if dt then -1 else 1;
      WrapAddWrapped(step, s.delta + (if dt then -(n - 1) else n - 1));
    }
  }

  /** Ten pulses with data LOW after construction are drained as 10. */
  lemma TenPulsesDrainTen(clk: Pin, dt: Pin, indeterminate: bool)
    ensures GetChange(Run(Construct(clk, dt, indeterminate), Pulses(10, false))).0 == 10
    ensures GetChange(Run(Construct(clk, dt, indeterminate), Pulses(10, true))).0 == -10
  {
    PulsesMoveNSteps(Construct(clk, dt, indeterminate), 10, false);
    PulsesMoveNSteps(Construct(clk, dt, indeterminate), 10, true);
  }

  /**
    From construction: a LOW baseline sample, then a rising clock. Data LOW
    on the edge is drained as +1, data HIGH as -1, and the counter is zero
    after the drain.
  */
  lemma RisingEdgeScenario(clk: Pin, dt: Pin, indeterminate: bool, data: bool)
    ensures var s := Run(Construct(clk, dt, indeterminate), [Sample(false, false), Sample(true, data)]);
      GetChange(s).0 == (if data then -1 else 1) && GetChange(s).1.delta == 0
  {
    var s0 := Construct(clk, dt, indeterminate);
    var xs := [Sample(false, false), Sample(true, data)];
    RunCountsRisingEdges(s0, xs);
    NetStepsLast(s0.lastClk, xs);
    NetStepsLast(s0.lastClk, xs[..1]);
  }

  /**
    Draining between two batches of samples loses nothing: the two reported
    values add up (in 16 bits) to what one drain after both batches reports,
    and the remembered clock level is the same either way.
  */
  lemma DrainBetweenBatchesLosesNothing(s: Encoder, xs: seq<Sample>, ys: seq<Sample>)
    ensures var (v1, s1) := GetChange(Run(s, xs));
            var (v2, s2) := GetChange(Run(s1, ys));
            Wrap(v1 + v2) == GetChange(Run(s, xs + ys)).0
            && s2 == GetChange(Run(s, xs + ys)).1
  {
    var t := Run(s, xs);
    var (v1, s1) := GetChange(t);
    RunAppend(s, xs, ys);
    RunCountsRisingEdges(t, ys);
    RunCountsRisingEdges(s1, ys);
    WrapAddWrapped(v1, NetSteps(t.lastClk, ys));
  }
}
