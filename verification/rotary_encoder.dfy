/**
  The polled quadrature decoder: a record of the two pin ids, the signed step
  counter and the last clock level seen, with one pure function per operation.

  A level is a `bool`: `true` is HIGH and `false` is LOW. The two pin reads of
  a sampling call are parameters of `Update` instead of hardware reads.
*/
module RotaryEncoder {
  import opened FixedWidth

  /** A pin id is a `uint8_t`. */
  type Pin = p: int | 0 <= p < 0x100

  datatype Encoder = Encoder(clkPin: Pin, dtPin: Pin, delta: Int16, lastClk: bool)

  /** A rising edge of the clock line: LOW before, HIGH now. */
  predicate RisingEdge(last: bool, clk: bool) {
    !last && clk
  }

  /**
    Construction binds the two pins and zeroes the counter. The remembered
    clock level is never initialised, so its starting value is a parameter
    the contract says nothing about.
  */
  function Construct(clk: Pin, dt: Pin, indeterminate: bool): (s: Encoder)
    ensures s.clkPin == clk && s.dtPin == dt
    ensures s.delta == 0
  {
    Encoder(clk, dt, 0, indeterminate)
  }

  /**
    One sampling call, given the clock level and the data level read during it.
    The data level only matters on a rising edge: data LOW (differing from the
    HIGH clock) counts up, data HIGH counts down.
  */
  function Update(s: Encoder, clk: bool, dt: bool): (r: Encoder)
    ensures r.lastClk == clk
    ensures r.clkPin == s.clkPin && r.dtPin == s.dtPin
    ensures !RisingEdge(s.lastClk, clk) ==> r.delta == s.delta
    ensures RisingEdge(s.lastClk, clk) && !dt ==> (r.delta - s.delta - 1) % Modulus == 0
    ensures RisingEdge(s.lastClk, clk) && dt ==> (r.delta - s.delta + 1) % Modulus == 0
  {
    var delta :=
      if clk != s.lastClk && clk then
        if dt != clk then Wrap(s.delta + 1) else Wrap(s.delta - 1)
      else
        s.delta;
    s.(delta := delta, lastClk := clk)
  }

  /** Drains the counter: returns its value and leaves it at zero. */
  function GetChange(s: Encoder): (r: (Int16, Encoder))
    ensures r.0 == s.delta
    ensures r.1.delta == 0
    ensures r.1.lastClk == s.lastClk
    ensures r.1.clkPin == s.clkPin && r.1.dtPin == s.dtPin
  {
    var val := s.delta;
    (val, s.(delta := 0))
  }

  /** Discards the counter without reporting it. */
  function Reset(s: Encoder): (r: Encoder)
    ensures r.delta == 0
    ensures r.lastClk == s.lastClk
    ensures r.clkPin == s.clkPin && r.dtPin == s.dtPin
  {
    s.(delta := 0)
  }

  /** The counter moves if and only if the sample is a rising edge. */
  lemma UpdateCountsExactlyRisingEdges(s: Encoder, clk: bool, dt: bool)
    ensures Update(s, clk, dt).delta != s.delta <==> RisingEdge(s.lastClk, clk)
  {
  }

  /** Away from the 16-bit limits a sample moves the counter by at most one. */
  lemma UpdateMovesAtMostOne(s: Encoder, clk: bool, dt: bool)
    requires Min < s.delta < Max
    ensures -1 <= Update(s, clk, dt).delta - s.delta <= 1
  {
  }

  /** At the limits the counter wraps around, as the 16-bit counter does. */
  lemma UpdateWrapsAtLimits(s: Encoder, dt: bool)
    requires !s.lastClk
    ensures s.delta == Max && !dt ==> Update(s, true, dt).delta == Min
    ensures s.delta == Min && dt ==> Update(s, true, dt).delta == Max
  {
  }

  /** The data level read outside a rising edge has no effect at all. */
  lemma UpdateIgnoresDataOffEdge(s: Encoder, clk: bool, dt1: bool, dt2: bool)
    requires !RisingEdge(s.lastClk, clk)
    ensures Update(s, clk, dt1) == Update(s, clk, dt2)
  {
  }

  /** Sampling the same clock level twice never counts the second time. */
  lemma UpdateRepeatedLevelCountsOnce(s: Encoder, clk: bool, dt1: bool, dt2: bool)
    ensures Update(Update(s, clk, dt1), clk, dt2).delta == Update(s, clk, dt1).delta
  {
  }

  /**
    The indeterminate starting level decides whether a HIGH first sample
    counts: the two possible starting levels give different counters.
  */
  lemma FirstSampleDependsOnStartLevel(clk: Pin, dt: Pin, data: bool)
    ensures Update(Construct(clk, dt, false), true, data).delta != 0
    ensures Update(Construct(clk, dt, true), true, data).delta == 0
  {
  }

  /** A LOW first sample seeds the remembered level whatever it started as. */
  lemma FirstLowSampleSeedsLevel(clk: Pin, dt: Pin, g1: bool, g2: bool, data: bool)
    ensures Update(Construct(clk, dt, g1), false, data) == Update(Construct(clk, dt, g2), false, data)
    ensures Update(Construct(clk, dt, g1), false, data).delta == 0
  {
  }

  /** Two drains in a row report the value, then zero. */
  lemma GetChangeTwice(s: Encoder)
    ensures GetChange(s).0 == s.delta
    ensures GetChange(GetChange(s).1).0 == 0
    ensures GetChange(GetChange(s).1).1 == GetChange(s).1
  {
  }

  /** The state a drain leaves behind is exactly the state a reset leaves. */
  lemma GetChangeLeavesResetState(s: Encoder)
    ensures GetChange(s).1 == Reset(s)
  {
  }

  /** A reset followed by a drain reports zero; a second reset does nothing. */
  lemma ResetThenGetChange(s: Encoder)
    ensures GetChange(Reset(s)).0 == 0
    ensures Reset(Reset(s)) == Reset(s)
  {
  }
}
