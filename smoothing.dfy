/**
 * Cursor smoothing filters: the low-pass and exponential-moving-average
 * filters (one blend step per call), the One-Euro filter (a low-pass filter
 * on the speed steering the cutoff of a low-pass filter on the value) and
 * the 2-D point smoother that runs one filter per axis.
 *
 * Each filter is a class whose fields change per call; every method is tied
 * to a pure step function over the filter's state, and the properties are
 * lemmas about those step functions.
 */
module Smoothing {
  import opened Wrappers
  import opened Numeric

  /** `math.pi`; only its positivity matters to the model. */
  const Pi: real := 3.141592653589793

  /** `max(0.0, min(1.0, alpha))`. */
  function ClampAlpha(alpha: real): (a: real)
    ensures 0.0 <= a <= 1.0
    ensures 0.0 <= alpha <= 1.0 ==> a == alpha
    ensures alpha < 0.0 ==> a == 0.0
    ensures 1.0 < alpha ==> a == 1.0
  {
    Clamp(0.0, 1.0, alpha)
  }

  /**
   * One filter step on the previous output `prev`: the first value (no
   * previous output) passes through, later ones are `alpha * value +
   * (1 - alpha) * prev`.
   */
  function Blend(alpha: real, prev: Option<real>, value: real): (r: real)
    ensures prev.None? ==> r == value
  {
    if prev.None? then value else Mix(alpha, prev.value, value)
  }

  /** `alpha * value + (1 - alpha) * prev`, the step taken once there is a previous output. */
  function Mix(alpha: real, prev: real, value: real): real {
    alpha * value + (1.0 - alpha) * prev
  }

  // The solver handles the products in a blend step best one fact at a
  // time, so each of the following lemmas proves a single fact about the
  // step's formula `alpha * value + (1 - alpha) * prev`.

  /** With factor 1 the filter follows the input exactly. */
  lemma MixFullFactor(prev: real, value: real)
    ensures Mix(1.0, prev, value) == value
  {
    MulComplement(1.0, prev);
  }

  /** With factor 0 the filter holds its previous output. */
  lemma MixZeroFactor(prev: real, value: real)
    ensures Mix(0.0, prev, value) == prev
  {
    MulComplement(0.0, prev);
  }

  /** A step moves the output by `alpha` times the gap to the input. */
  lemma BlendGapPrev(alpha: real, prev: real, value: real)
    ensures Mix(alpha, prev, value) - prev == alpha * (value - prev)
  {
    MulDistributes(alpha, prev, value);
    MulComplement(alpha, prev);
  }

  /** After a step, `1 - alpha` times the gap is still to go. */
  lemma BlendGapValue(alpha: real, prev: real, value: real)
    ensures value - Mix(alpha, prev, value) == (1.0 - alpha) * (value - prev)
  {
    MulDistributes(1.0 - alpha, prev, value);
    MulComplement(alpha, value);
    MulComplement(alpha, prev);
  }

  lemma MulNonPositive(a: real, x: real)
    requires 0.0 <= a && x <= 0.0
    ensures a * x <= 0.0
  {
    MulNonNegative(a, -x);
  }

  lemma MulNegative(a: real, x: real)
    requires 0.0 < a && x < 0.0
    ensures a * x < 0.0
  {
    MulPositive(a, -x);
  }

  lemma NoBelowPrev(alpha: real, prev: real, value: real)
    requires 0.0 <= alpha && prev <= value
    ensures prev <= Mix(alpha, prev, value)
  {
    BlendGapPrev(alpha, prev, value);
    MulNonNegative(alpha, value - prev);
  }

  lemma NoAboveValue(alpha: real, prev: real, value: real)
    requires alpha <= 1.0 && prev <= value
    ensures Mix(alpha, prev, value) <= value
  {
    BlendGapValue(alpha, prev, value);
    MulNonNegative(1.0 - alpha, value - prev);
  }

  lemma NoAbovePrev(alpha: real, prev: real, value: real)
    requires 0.0 <= alpha && value <= prev
    ensures Mix(alpha, prev, value) <= prev
  {
    BlendGapPrev(alpha, prev, value);
    MulNonPositive(alpha, value - prev);
  }

  lemma NoBelowValue(alpha: real, prev: real, value: real)
    requires alpha <= 1.0 && value <= prev
    ensures value <= Mix(alpha, prev, value)
  {
    BlendGapValue(alpha, prev, value);
    MulNonPositive(1.0 - alpha, value - prev);
  }

  lemma AbovePrev(alpha: real, prev: real, value: real)
    requires 0.0 < alpha && prev < value
    ensures prev < Mix(alpha, prev, value)
  {
    BlendGapPrev(alpha, prev, value);
    MulPositive(alpha, value - prev);
  }

  lemma BelowValue(alpha: real, prev: real, value: real)
    requires alpha < 1.0 && prev < value
    ensures Mix(alpha, prev, value) < value
  {
    BlendGapValue(alpha, prev, value);
    MulPositive(1.0 - alpha, value - prev);
  }

  lemma BelowPrev(alpha: real, prev: real, value: real)
    requires 0.0 < alpha && value < prev
    ensures Mix(alpha, prev, value) < prev
  {
    BlendGapPrev(alpha, prev, value);
    MulNegative(alpha, value - prev);
  }

  lemma AboveValue(alpha: real, prev: real, value: real)
    requires alpha < 1.0 && value < prev
    ensures value < Mix(alpha, prev, value)
  {
    BlendGapValue(alpha, prev, value);
    MulNegative(1.0 - alpha, value - prev);
  }

  lemma BlendAtLeastMin(alpha: real, prev: real, value: real)
    requires 0.0 <= alpha <= 1.0
    ensures Min(prev, value) <= Mix(alpha, prev, value)
  {
    if prev <= value {
      NoBelowPrev(alpha, prev, value);
    } else {
      NoBelowValue(alpha, prev, value);
    }
  }

  lemma BlendAtMostMax(alpha: real, prev: real, value: real)
    requires 0.0 <= alpha <= 1.0
    ensures Mix(alpha, prev, value) <= Max(prev, value)
  {
    if prev <= value {
      NoAboveValue(alpha, prev, value);
    } else {
      NoAbovePrev(alpha, prev, value);
    }
  }

  lemma BlendAboveMin(alpha: real, prev: real, value: real)
    requires 0.0 < alpha < 1.0 && prev != value
    ensures Min(prev, value) < Mix(alpha, prev, value)
  {
    if prev < value {
      AbovePrev(alpha, prev, value);
    } else {
      AboveValue(alpha, prev, value);
    }
  }

  lemma BlendBelowMax(alpha: real, prev: real, value: real)
    requires 0.0 < alpha < 1.0 && prev != value
    ensures Mix(alpha, prev, value) < Max(prev, value)
  {
    if prev < value {
      BelowValue(alpha, prev, value);
    } else {
      BelowPrev(alpha, prev, value);
    }
  }

  /** For `alpha` in [0, 1] a step lands between the previous output and the new input. */
  lemma BlendBetween(alpha: real, prev: real, value: real)
    requires 0.0 <= alpha <= 1.0
    ensures Min(prev, value) <= Mix(alpha, prev, value)
    ensures Mix(alpha, prev, value) <= Max(prev, value)
  {
    BlendAtLeastMin(alpha, prev, value);
    BlendAtMostMax(alpha, prev, value);
  }

  /** For `alpha` strictly inside (0, 1) a step lands strictly between two different values. */
  lemma BlendStrictlyBetween(alpha: real, prev: real, value: real)
    requires 0.0 < alpha < 1.0 && prev != value
    ensures Min(prev, value) < Mix(alpha, prev, value)
    ensures Mix(alpha, prev, value) < Max(prev, value)
  {
    BlendAboveMin(alpha, prev, value);
    BlendBelowMax(alpha, prev, value);
  }

  /** The output after `k` further steps towards a constant `target`, starting from output `x`. */
  function Approach(alpha: real, x: real, target: real, k: nat): real
    decreases k
  {
    if k == 0 then x else Approach(alpha, Mix(alpha, x, target), target, k - 1)
  }

  /**
   * Under a sustained input from below, the output rises monotonically
   * towards the target and never reaches it.
   */
  lemma {:induction false} ApproachFromBelow(alpha: real, x: real, target: real, k: nat)
    decreases k
    requires 0.0 < alpha < 1.0 && x < target
    ensures x <= Approach(alpha, x, target, k)
    ensures Approach(alpha, x, target, k) < Approach(alpha, x, target, k + 1)
    ensures Approach(alpha, x, target, k + 1) < target
  {
    var x1 := Mix(alpha, x, target);
    BlendStrictlyBetween(alpha, x, target);
    if k > 0 {
      ApproachFromBelow(alpha, x1, target, k - 1);
    }
  }

  /** The mirror image: under a sustained input from above the output falls towards it. */
  lemma {:induction false} ApproachFromAbove(alpha: real, x: real, target: real, k: nat)
    decreases k
    requires 0.0 < alpha < 1.0 && target < x
    ensures Approach(alpha, x, target, k) <= x
    ensures Approach(alpha, x, target, k + 1) < Approach(alpha, x, target, k)
    ensures target < Approach(alpha, x, target, k + 1)
  {
    var x1 := Mix(alpha, x, target);
    BlendStrictlyBetween(alpha, x, target);
    if k > 0 {
      ApproachFromAbove(alpha, x1, target, k - 1);
    }
  }

  /** The state of a LowPassFilter. */
  datatype LowPassState = LowPassState(alpha: real, prevOutput: Option<real>)

  /** The state after one `filter` call; its output is the new `prevOutput`. */
  function LowPassStep(s: LowPassState, value: real): (r: LowPassState)
    ensures r.alpha == s.alpha && r.prevOutput.Some?
    ensures s.prevOutput.None? ==> r.prevOutput == Some(value)
  {
    s.(prevOutput := Some(Blend(s.alpha, s.prevOutput, value)))
  }

  class LowPassFilter {
    var alpha: real
    var prevOutput: Option<real>

    function State(): LowPassState
      reads this
    {
      LowPassState(alpha, prevOutput)
    }

    /** `LowPassFilter(alpha)`: the factor is clamped into [0, 1]. */
    constructor(alpha: real)
      ensures State() == LowPassState(ClampAlpha(alpha), None)
    {
      this.alpha := alpha;
      prevOutput := None;
      new;
      SetAlpha(alpha);
    }

    method SetAlpha(alpha: real)
      modifies this
      ensures State() == LowPassState(ClampAlpha(alpha), old(prevOutput))
    {
      this.alpha := ClampAlpha(alpha);
    }

    method Filter(value: real) returns (r: real)
      modifies this
      ensures State() == LowPassStep(old(State()), value) && prevOutput == Some(r)
    {
      if prevOutput.None? {
        prevOutput := Some(value);
      } else {
        var prev := prevOutput.value;
        assert Blend(alpha, prevOutput, value) == alpha * value + (1.0 - alpha) * prev;
        prevOutput := Some(alpha * value + (1.0 - alpha) * prev);
      }
      r := prevOutput.value;
    }

    method Reset()
      modifies this
      ensures State() == LowPassState(old(alpha), None)
    {
      prevOutput := None;
    }
  }

  /** The EMA filter: a fixed, clamped factor and the previous output. */
  class EMAFilter {
    const alpha: real
    var prevValue: Option<real>

    constructor(alpha: real)
      ensures this.alpha == ClampAlpha(alpha) && prevValue.None?
    {
      this.alpha := ClampAlpha(alpha);
      prevValue := None;
    }

    method Filter(value: real) returns (r: real)
      modifies this
      ensures r == Blend(alpha, old(prevValue), value) && prevValue == Some(r)
    {
      if prevValue.None? {
        prevValue := Some(value);
      } else {
        var prev := prevValue.value;
        assert Blend(alpha, prevValue, value) == alpha * value + (1.0 - alpha) * prev;
        prevValue := Some(alpha * value + (1.0 - alpha) * prev);
      }
      r := prevValue.value;
    }

    method Reset()
      modifies this
      ensures prevValue.None?
    {
      prevValue := None;
    }
  }

  lemma DivPositive(a: real, b: real)
    requires 0.0 < a && 0.0 < b
    ensures 0.0 < a / b
  {
  }

  lemma ReciprocalBelowOne(d: real)
    requires 1.0 < d
    ensures 0.0 < 1.0 / d < 1.0
  {
  }

  /**
   * `_get_alpha`: `1 / (1 + tau / dt)` with `tau = 1 / (2 * pi * cutoff)`;
   * a zero divisor raises ZeroDivisionError.
   */
  function GetAlpha(cutoff: real, dt: real): (r: Result<real>)
    ensures r.Failure? ==> r.error == "ZeroDivisionError"
    // a divisor is zero: the cutoff, the time step, or 1 + tau / dt (a cutoff of -1 / (2 pi dt))
    ensures r.Failure? <==> cutoff == 0.0 || dt == 0.0 || 1.0 + (1.0 / (2.0 * Pi * cutoff)) / dt == 0.0
  {
    if cutoff == 0.0 then Failure("ZeroDivisionError")
    else
      NonZeroProduct(2.0 * Pi, cutoff);
      var tau := 1.0 / (2.0 * Pi * cutoff);
      if dt == 0.0 then Failure("ZeroDivisionError")
      else if 1.0 + tau / dt == 0.0 then Failure("ZeroDivisionError")
      else Success(1.0 / (1.0 + tau / dt))
  }

  lemma NonZeroProduct(a: real, b: real)
    requires 0.0 < a && b != 0.0
    ensures a * b != 0.0
  {
    if b < 0.0 {
      MulPositive(a, -b);
    } else {
      MulPositive(a, b);
    }
  }

  /** For a positive cutoff and time step the smoothing factor lies strictly inside (0, 1). */
  lemma AlphaInUnitInterval(cutoff: real, dt: real)
    requires 0.0 < cutoff && 0.0 < dt
    ensures GetAlpha(cutoff, dt).Success?
    ensures 0.0 < GetAlpha(cutoff, dt).value < 1.0
  {
    MulPositive(2.0 * Pi, cutoff);
    var tau := 1.0 / (2.0 * Pi * cutoff);
    DivPositive(1.0, 2.0 * Pi * cutoff);
    DivPositive(tau, dt);
    ReciprocalBelowOne(1.0 + tau / dt);
  }

  datatype EuroParams = EuroParams(freq: real, mincutoff: real, beta: real, dcutoff: real)

  const DefaultEuroParams := EuroParams(30.0, 1.0, 0.007, 1.0)

  /** The cutoff of the value filter: `mincutoff + beta * |speed|`. */
  function AdaptiveCutoff(p: EuroParams, speed: real): (r: real)
    ensures speed == 0.0 || p.beta == 0.0 ==> r == p.mincutoff
  {
    p.mincutoff + p.beta * Abs(speed)
  }

  /** With a non-negative `beta` the adaptive cutoff never drops below `mincutoff`. */
  lemma AdaptiveCutoffAtLeastMin(p: EuroParams, speed: real)
    requires 0.0 <= p.beta
    ensures p.mincutoff <= AdaptiveCutoff(p, speed)
  {
    MulNonNegative(p.beta, Abs(speed));
  }

  /** Parameters for which `_get_alpha` never divides by zero. */
  predicate WellFormedParams(p: EuroParams) {
    0.0 < p.mincutoff && 0.0 <= p.beta && 0.0 < p.dcutoff
  }

  /** The state of a OneEuroFilter: its two low-pass filters and the previous time and value. */
  datatype EuroState = EuroState(x: LowPassState, dx: LowPassState, prevTime: Option<real>, prevValue: Option<real>)

  /** The sub-filters are created with the default factor 0.1. */
  const EuroInitial := EuroState(LowPassState(0.1, None), LowPassState(0.1, None), None, None)

  datatype EuroStep = EuroStep(state: EuroState, output: Result<real>)

  /** One `filter(value, timestamp)` call. */
  function OneEuroStep(p: EuroParams, s: EuroState, value: real, timestamp: real): (r: EuroStep)
    ensures r.output.Failure? ==>
      r.output.error == "ZeroDivisionError" && r.state.x == s.x
      && r.state.prevTime == s.prevTime && r.state.prevValue == s.prevValue
    ensures r.output.Success? && !(s.prevTime.Some? && s.prevValue.Some? && timestamp <= s.prevTime.value) ==>
      r.state.prevTime == Some(timestamp) && r.state.prevValue == Some(r.output.value)
  {
    if s.prevTime.None? || s.prevValue.None? then
      EuroStep(s.(prevTime := Some(timestamp), prevValue := Some(value)), Success(value))
    else if timestamp - s.prevTime.value <= 0.0 then EuroStep(s, Success(value))
    else EuroSmooth(p, s, value, timestamp)
  }

  /**
   * A call with a positive time step: the speed `dx` goes through the
   * derivative filter, whose output sets the cutoff of the value filter.
   */
  function EuroSmooth(p: EuroParams, s: EuroState, value: real, timestamp: real): (r: EuroStep)
    requires s.prevTime.Some? && s.prevValue.Some? && s.prevTime.value < timestamp
    ensures r.output.Failure? ==>
      r.output.error == "ZeroDivisionError" && r.state.x == s.x
      && r.state.prevTime == s.prevTime && r.state.prevValue == s.prevValue
    ensures r.output.Success? ==>
      r.state.prevTime == Some(timestamp) && r.state.prevValue == Some(r.output.value)
      && r.state.x.prevOutput == Some(r.output.value) && r.state.dx.prevOutput.Some?
  {
    var dt := timestamp - s.prevTime.value;
    var dx := (value - s.prevValue.value) / dt;
    var alphaD := GetAlpha(p.dcutoff, dt);
    if alphaD.Failure? then EuroStep(s, Failure(alphaD.error))
    else
      var dxState := LowPassStep(LowPassState(ClampAlpha(alphaD.value), s.dx.prevOutput), dx);
      EuroSmoothValue(p, s.(dx := dxState), value, timestamp, dt)
  }

  /** The value stage of EuroSmooth, once the derivative filter has run. */
  function EuroSmoothValue(p: EuroParams, s: EuroState, value: real, timestamp: real, dt: real): (r: EuroStep)
    requires s.dx.prevOutput.Some?
    ensures r.state.dx == s.dx
    ensures r.output.Failure? ==> r.output.error == "ZeroDivisionError" && r.state == s
    ensures r.output.Success? ==>
      r.state.prevTime == Some(timestamp) && r.state.prevValue == Some(r.output.value)
      && r.state.x.prevOutput == Some(r.output.value)
  {
    var cutoff := AdaptiveCutoff(p, s.dx.prevOutput.value);
    var alphaX := GetAlpha(cutoff, dt);
    if alphaX.Failure? then EuroStep(s, Failure(alphaX.error))
    else
      var xState := LowPassStep(LowPassState(ClampAlpha(alphaX.value), s.x.prevOutput), value);
      var result := xState.prevOutput.value;
      EuroStep(EuroState(xState, s.dx, Some(timestamp), Some(result)), Success(result))
  }

  /** With no previous time or value the input passes through and is recorded with its time. */
  lemma EuroFirstCallPassesThrough(p: EuroParams, s: EuroState, value: real, timestamp: real)
    requires s.prevTime.None? || s.prevValue.None?
    ensures OneEuroStep(p, s, value, timestamp) ==
      EuroStep(s.(prevTime := Some(timestamp), prevValue := Some(value)), Success(value))
  {
  }

  /** A time step that is not positive passes the input through and changes nothing. */
  lemma EuroNonPositiveStep(p: EuroParams, s: EuroState, value: real, timestamp: real)
    requires s.prevTime.Some? && s.prevValue.Some? && timestamp <= s.prevTime.value
    ensures OneEuroStep(p, s, value, timestamp) == EuroStep(s, Success(value))
  {
  }

  /**
   * A smoothing step never fails for well-formed parameters; it records the
   * call's time and the filtered result (not the raw input), and the result
   * lies between the previous filtered value (if any) and the input.
   */
  lemma EuroSmoothingStep(p: EuroParams, s: EuroState, value: real, timestamp: real)
    requires WellFormedParams(p)
    requires s.prevTime.Some? && s.prevValue.Some? && s.prevTime.value < timestamp
    ensures var r := OneEuroStep(p, s, value, timestamp);
      r.output.Success? &&
      r.state.prevTime == Some(timestamp) && r.state.prevValue == Some(r.output.value) &&
      r.state.x.prevOutput == Some(r.output.value) &&
      (s.x.prevOutput.None? ==> r.output.value == value) &&
      (s.x.prevOutput.Some? ==>
        Min(s.x.prevOutput.value, value) <= r.output.value <= Max(s.x.prevOutput.value, value))
  {
    var dt := timestamp - s.prevTime.value;
    AlphaInUnitInterval(p.dcutoff, dt);
    var dx := (value - s.prevValue.value) / dt;
    var dxState := LowPassStep(LowPassState(ClampAlpha(GetAlpha(p.dcutoff, dt).value), s.dx.prevOutput), dx);
    var cutoff := AdaptiveCutoff(p, dxState.prevOutput.value);
    AdaptiveCutoffAtLeastMin(p, dxState.prevOutput.value);
    AlphaInUnitInterval(cutoff, dt);
    if s.x.prevOutput.Some? {
      BlendBetween(ClampAlpha(GetAlpha(cutoff, dt).value), s.x.prevOutput.value, value);
    }
  }

  /** The state `reset` leaves: factors kept, everything else forgotten. */
  function EuroReset(s: EuroState): (r: EuroState)
    ensures r.prevTime.None? && r.x.alpha == s.x.alpha && r.dx.alpha == s.dx.alpha
  {
    EuroState(LowPassState(s.x.alpha, None), LowPassState(s.dx.alpha, None), None, None)
  }

  /** After `reset` the next value passes through. */
  lemma EuroResetThenPassThrough(p: EuroParams, s: EuroState, value: real, timestamp: real)
    ensures OneEuroStep(p, EuroReset(s), value, timestamp).output == Success(value)
  {
  }

  class OneEuroFilter {
    const freq: real
    const mincutoff: real
    const beta: real
    const dcutoff: real
    const xFilter: LowPassFilter
    const dxFilter: LowPassFilter
    var prevTime: Option<real>
    var prevValue: Option<real>

    ghost function Repr(): set<object> {
      {this, xFilter, dxFilter}
    }

    ghost predicate Valid() {
      xFilter != dxFilter
    }

    function Params(): EuroParams {
      EuroParams(freq, mincutoff, beta, dcutoff)
    }

    function State(): EuroState
      reads this, xFilter, dxFilter
    {
      EuroState(xFilter.State(), dxFilter.State(), prevTime, prevValue)
    }

    constructor(p: EuroParams)
      ensures Valid() && Params() == p && State() == EuroInitial
      ensures fresh(xFilter) && fresh(dxFilter)
    {
      freq, mincutoff, beta, dcutoff := p.freq, p.mincutoff, p.beta, p.dcutoff;
      xFilter := new LowPassFilter(0.1);
      dxFilter := new LowPassFilter(0.1);
      prevTime := None;
      prevValue := None;
    }

    /** `filter(value, timestamp)`; a ZeroDivisionError is returned as a Failure. */
    method Filter(value: real, timestamp: real) returns (r: Result<real>)
      requires Valid()
      modifies Repr()
      ensures EuroStep(State(), r) == OneEuroStep(Params(), old(State()), value, timestamp)
    {
      if prevTime.None? || prevValue.None? {
        prevTime := Some(timestamp);
        prevValue := Some(value);
        return Success(value);
      }
      var dt := timestamp - prevTime.value;
      if dt <= 0.0 {
        return Success(value);
      }
      r := Smooth(value, timestamp);
    }

    /** The positive-time-step branch of `filter`. */
    method Smooth(value: real, timestamp: real) returns (r: Result<real>)
      requires Valid() && prevTime.Some? && prevValue.Some? && prevTime.value < timestamp
      modifies Repr()
      ensures EuroStep(State(), r) == EuroSmooth(Params(), old(State()), value, timestamp)
    {
      var dt := timestamp - prevTime.value;
      var dx := (value - prevValue.value) / dt;
      var alphaD := GetAlpha(dcutoff, dt);
      if alphaD.Failure? {
        return Failure(alphaD.error);
      }
      dxFilter.SetAlpha(alphaD.value);
      var dxSmooth := dxFilter.Filter(dx);
      r := SmoothValue(value, timestamp, dt, dxSmooth);
    }

    /** The value stage: the cutoff follows the smoothed speed `dxSmooth`. */
    method SmoothValue(value: real, timestamp: real, dt: real, dxSmooth: real) returns (r: Result<real>)
      requires Valid() && dxFilter.prevOutput == Some(dxSmooth)
      modifies this, xFilter
      ensures EuroStep(State(), r) == EuroSmoothValue(Params(), old(State()), value, timestamp, dt)
    {
      ghost var s := State();
      assert s.dx.prevOutput.value == dxSmooth;
      var cutoff := AdaptiveCutoff(Params(), dxSmooth);
      var alphaX := GetAlpha(cutoff, dt);
      if alphaX.Failure? {
        return Failure(alphaX.error);
      }
      ghost var xState := LowPassStep(LowPassState(ClampAlpha(alphaX.value), s.x.prevOutput), value);
      xFilter.SetAlpha(alphaX.value);
      var result := xFilter.Filter(value);
      assert xFilter.State() == xState && dxFilter.State() == s.dx;
      prevTime := Some(timestamp);
      prevValue := Some(result);
      return Success(result);
    }

    method Reset()
      requires Valid()
      modifies Repr()
      ensures State() == EuroReset(old(State()))
    {
      xFilter.Reset();
      dxFilter.Reset();
      prevTime := None;
      prevValue := None;
    }
  }

  datatype SmootherKind = OneEuroKind | EmaKind

  /** The smoother type names: anything but 'one_euro' and 'ema' raises ValueError. */
  function ParseSmootherType(name: string): (r: Result<SmootherKind>)
    ensures r == Success(OneEuroKind) <==> name == "one_euro"
    ensures r == Success(EmaKind) <==> name == "ema"
    ensures r.Failure? <==> name != "one_euro" && name != "ema"
    ensures r.Failure? ==> r.error == "ValueError"
  {
    if name == "one_euro" then Success(OneEuroKind)
    else if name == "ema" then Success(EmaKind)
    else Failure("ValueError")
  }

  /** The two per-axis filter states of a point smoother. */
  datatype PointState =
    | EuroPoint(xs: EuroState, ys: EuroState)
    | EmaPoint(xPrev: Option<real>, yPrev: Option<real>)

  datatype PointStep = PointStep(state: PointState, output: Result<(real, real)>)

  /**
   * One `filter(point, timestamp)` call: x and then y through their own
   * filters. A failure of the x filter leaves the y filter untouched.
   */
  function PointSmootherStep(p: EuroParams, alpha: real, s: PointState, point: (real, real), timestamp: real): (r: PointStep)
    ensures r.state.EuroPoint? == s.EuroPoint?
  {
    match s
    case EmaPoint(xPrev, yPrev) =>
      var x, y := Blend(alpha, xPrev, point.0), Blend(alpha, yPrev, point.1);
      PointStep(EmaPoint(Some(x), Some(y)), Success((x, y)))
    case EuroPoint(xs, ys) =>
      var rx := OneEuroStep(p, xs, point.0, timestamp);
      if rx.output.Failure? then PointStep(EuroPoint(rx.state, ys), Failure(rx.output.error))
      else
        var ry := OneEuroStep(p, ys, point.1, timestamp);
        if ry.output.Failure? then PointStep(EuroPoint(rx.state, ry.state), Failure(ry.output.error))
        else PointStep(EuroPoint(rx.state, ry.state), Success((rx.output.value, ry.output.value)))
  }

  /** The state `reset` leaves. */
  function PointReset(s: PointState): (r: PointState)
    ensures r.EmaPoint? <==> s.EmaPoint?
    ensures s.EmaPoint? ==> r == EmaPoint(None, None)
    ensures s.EuroPoint? ==> r == EuroPoint(EuroReset(s.xs), EuroReset(s.ys))
  {
    match s
    case EmaPoint(_, _) => EmaPoint(None, None)
    case EuroPoint(xs, ys) => EuroPoint(EuroReset(xs), EuroReset(ys))
  }

  /**
   * A point smoother filters the two axes independently: each output
   * coordinate is what that axis's own filter gives for that coordinate.
   */
  lemma PointAxesIndependent(p: EuroParams, alpha: real, s: PointState, point: (real, real), timestamp: real)
    ensures var r := PointSmootherStep(p, alpha, s, point, timestamp);
      r.output.Success? ==>
        match s
        case EmaPoint(xPrev, yPrev) =>
          r.output.value == (Blend(alpha, xPrev, point.0), Blend(alpha, yPrev, point.1))
        case EuroPoint(xs, ys) =>
          OneEuroStep(p, xs, point.0, timestamp).output == Success(r.output.value.0) &&
          OneEuroStep(p, ys, point.1, timestamp).output == Success(r.output.value.1)
  {
  }

  /** After `reset` (and on a fresh smoother) the next point passes through unchanged. */
  lemma PointResetThenPassThrough(p: EuroParams, alpha: real, s: PointState, point: (real, real), timestamp: real)
    ensures PointSmootherStep(p, alpha, PointReset(s), point, timestamp).output == Success(point)
  {
  }

  class PointSmoother {
    const kind: SmootherKind
    const xEuro: OneEuroFilter?
    const yEuro: OneEuroFilter?
    const xEma: EMAFilter?
    const yEma: EMAFilter?

    ghost function Repr(): set<object> {
      {this}
      + (if xEuro != null then xEuro.Repr() else {})
      + (if yEuro != null then yEuro.Repr() else {})
      + (if xEma != null then {xEma} else {})
      + (if yEma != null then {yEma} else {})
    }

    /** The filters of the chosen kind exist, are separate objects and share their parameters. */
    ghost predicate Valid() {
      (kind == OneEuroKind ==>
        xEuro != null && yEuro != null && xEuro.Valid() && yEuro.Valid()
        && xEuro.Repr() !! yEuro.Repr() && xEuro.Params() == yEuro.Params())
      && (kind == EmaKind ==> xEma != null && yEma != null && xEma != yEma && xEma.alpha == yEma.alpha)
    }

    function Params(): EuroParams
      requires Valid()
    {
      if kind == OneEuroKind then xEuro.Params() else DefaultEuroParams
    }

    function Alpha(): real
      requires Valid()
    {
      if kind == EmaKind then xEma.alpha else 0.0
    }

    function State(): PointState
      requires Valid()
      reads Repr()
    {
      if kind == OneEuroKind then EuroPoint(xEuro.State(), yEuro.State())
      else EmaPoint(xEma.prevValue, yEma.prevValue)
    }

    /** `PointSmoother(type, **params)` for an already parsed type. */
    constructor(kind: SmootherKind, p: EuroParams, alpha: real)
      ensures Valid() && this.kind == kind
      ensures kind == OneEuroKind ==> Params() == p && State() == EuroPoint(EuroInitial, EuroInitial)
      ensures kind == EmaKind ==> Alpha() == ClampAlpha(alpha) && State() == EmaPoint(None, None)
      ensures fresh(Repr())
    {
      this.kind := kind;
      if kind == OneEuroKind {
        xEuro := new OneEuroFilter(p);
        yEuro := new OneEuroFilter(p);
        xEma := null;
        yEma := null;
      } else {
        xEuro := null;
        yEuro := null;
        xEma := new EMAFilter(alpha);
        yEma := new EMAFilter(alpha);
      }
    }

    method Filter(point: (real, real), timestamp: real) returns (r: Result<(real, real)>)
      requires Valid()
      modifies Repr()
      ensures PointStep(State(), r) == PointSmootherStep(Params(), Alpha(), old(State()), point, timestamp)
    {
      if kind == OneEuroKind {
        var sx := xEuro.Filter(point.0, timestamp);
        if sx.Failure? {
          return Failure(sx.error);
        }
        var sy := yEuro.Filter(point.1, timestamp);
        if sy.Failure? {
          return Failure(sy.error);
        }
        r := Success((sx.value, sy.value));
      } else {
        var sx := xEma.Filter(point.0);
        var sy := yEma.Filter(point.1);
        r := Success((sx, sy));
      }
    }

    method Reset()
      requires Valid()
      modifies Repr()
      ensures State() == PointReset(old(State()))
    {
      if kind == OneEuroKind {
        xEuro.Reset();
        yEuro.Reset();
      } else {
        xEma.Reset();
        yEma.Reset();
      }
    }
  }
}
