/** Lot sizing in exact reals; the source's epsilon and rounding are kept. */
module VolumeCalculator {
  import opened Common

  datatype CopyMode = FixedLot | Multiplier | BalanceProportional | EquityProportional

  datatype Input = Input(
    copyMode: CopyMode,
    masterVolume: real,
    fixedLot: Option<real>,
    multiplier: real,
    masterBalance: Option<real>,
    masterEquity: Option<real>,
    slaveBalance: Option<real>,
    slaveEquity: Option<real>,
    minLot: real,
    maxLot: real,
    lotStep: real)

  datatype Sizing = Volume(volume: real) | Rejected(reason: string)

  const EPSILON := 0.000000001

  /** The number of 1/scale that x is worth. */
  function Units(x: real, scale: real): real { x * scale }

  /** The nearest multiple of 1/scale, halves upwards: toFixed for non-negative numbers. */
  function RoundTo(x: real, scale: real): real
    requires scale > 0.0
  {
    (Units(x, scale) + 0.5).Floor as real / scale
  }

  /** x is a whole number of 1/scale. */
  predicate OnGrid(x: real, scale: real) {
    Units(x, scale).Floor as real == Units(x, scale)
  }

  lemma OnGridRounds(x: real, scale: real)
    requires scale > 0.0
    ensures RoundTo(x, scale) == x <==> OnGrid(x, scale)
  {
    var n := (Units(x, scale) + 0.5).Floor;
    DivideBack(x, scale);
    DivideBack(n as real, scale);
    if OnGrid(x, scale) { FloorOfWhole(Units(x, scale), Units(x, scale).Floor); }
    if RoundTo(x, scale) == x { FloorOfWhole(Units(x, scale), n); }
  }

  lemma FloorOfWhole(y: real, m: int)
    requires m as real == y
    ensures y.Floor == m && (y + 0.5).Floor == m
  {
    var z := y + 0.5;
    assert m as real <= z < m as real + 1.0;
  }

  lemma DivideBack(x: real, c: real)
    requires c > 0.0
    ensures Units(x, c) / c == x && Units(x / c, c) == x
  {}

  lemma WholeIsOnGrid(x: real, scale: real, n: int)
    requires n as real == Units(x, scale)
    ensures OnGrid(x, scale)
  {
    FloorOfWhole(Units(x, scale), n);
  }

  predicate Positive(x: Option<real>) { x.Some? && x.value > 0.0 }

  /** The unrounded size each mode asks for, or why it cannot be known. */
  function RawVolume(input: Input): Sizing {
    match input.copyMode
    case FixedLot =>
      if !Positive(input.fixedLot) then Rejected("FIXED_LOT_NOT_CONFIGURED") else Volume(input.fixedLot.value)
    case Multiplier => Volume(input.masterVolume * input.multiplier)
    case BalanceProportional =>
      if !Positive(input.masterBalance) then Rejected("MASTER_BALANCE_UNKNOWN")
      else if input.slaveBalance.None? then Rejected("SLAVE_BALANCE_UNKNOWN")
      else Volume(input.masterVolume * (input.slaveBalance.value / input.masterBalance.value))
    case EquityProportional =>
      if !Positive(input.masterEquity) then Rejected("MASTER_EQUITY_UNKNOWN")
      else if input.slaveEquity.None? then Rejected("SLAVE_EQUITY_UNKNOWN")
      else Volume(input.masterVolume * (input.slaveEquity.value / input.masterEquity.value))
  }

  function WholeSteps(value: real, step: real): int
    requires step > 0.0
  {
    (value / step + EPSILON).Floor
  }

  /** k steps. */
  function Lots(k: int, step: real): real { k as real * step }

  function RoundDownToStep(value: real, step: real): real {
    if step <= 0.0 || value <= 0.0 then (if value > 0.0 then value else 0.0)
    else
      RoundTo(Lots(WholeSteps(value, step), step), 100000000.0)
  }

  function CalculateVolume(input: Input): Sizing {
    var raw := RawVolume(input);
    if raw.Rejected? then raw
    else
      var stepped := RoundDownToStep(raw.volume, input.lotStep);
      var clamped := if stepped < input.maxLot then stepped else input.maxLot;
      if clamped < input.minLot then Rejected("BELOW_MIN_LOT") else Volume(clamped)
  }

  // ---------------------------------------------------------------- properties

  /** k is the largest whole number of steps not above the size asked for, up to the epsilon. */
  predicate LargestSteps(k: int, raw: real, step: real) {
    && Lots(k, step) <= raw + 0.000000001 * step
    && raw + 0.000000001 * step < Lots(k + 1, step)
  }

  lemma MultipleOnGrid(k: int, x: real, scale: real)
    requires OnGrid(x, scale)
    ensures OnGrid(Lots(k, x), scale)
  {
    var n := Units(x, scale).Floor;
    Reassociate(k as real, x, scale);
    assert (k * n) as real == k as real * n as real;
    WholeIsOnGrid(Lots(k, x), scale, k * n);
  }

  lemma Reassociate(a: real, b: real, c: real)
    ensures (a * b) * c == a * (b * c)
  {}

  lemma FinerGrid(x: real)
    requires OnGrid(x, 100.0)
    ensures OnGrid(x, 100000000.0)
  {
    var n := Units(x, 100.0).Floor;
    WholeIsOnGrid(x, 100000000.0, n * 1000000);
  }

  lemma Unscale(raw: real, step: real)
    requires step > 0.0
    ensures (raw / step + EPSILON) * step == raw + EPSILON * step
  {}

  lemma {:induction false} FloorSteps(raw: real, step: real) returns (k: int)
    requires step > 0.0
    ensures k == WholeSteps(raw, step) && LargestSteps(k, raw, step)
  {
    k := WholeSteps(raw, step);
    Unscale(raw, step);
    StepsAround(raw / step + EPSILON, k, step);
  }

  lemma StepsAround(x: real, k: int, step: real)
    requires step > 0.0 && k as real <= x < (k + 1) as real
    ensures Lots(k, step) <= x * step < Lots(k + 1, step)
  {
    ScaleLe(k as real, x, step);
    ScaleLt(x, (k + 1) as real, step);
  }

  lemma ScaleLe(a: real, b: real, c: real)
    requires a <= b && c >= 0.0
    ensures a * c <= b * c
  {}

  lemma ScaleLt(a: real, b: real, c: real)
    requires a < b && c > 0.0
    ensures a * c < b * c
  {}

  lemma {:induction false} SteppedOnGrid(raw: real, step: real) returns (k: int)
    requires raw > 0.0 && step > 0.0 && OnGrid(step, 100.0)
    ensures LargestSteps(k, raw, step) && RoundDownToStep(raw, step) == Lots(k, step)
    ensures OnGrid(Lots(k, step), 100.0)
  {
    k := FloorSteps(raw, step);
    FinerGrid(step);
    MultipleOnGrid(k, step, 100000000.0);
    MultipleOnGrid(k, step, 100.0);
    var v := Lots(k, step);
    OnGridRounds(v, 100000000.0);
  }

  function Min(a: real, b: real): real { if a < b then a else b }

  function Max(a: real, b: real): real { if a > b then a else b }

  /** raw is to the Master's volume as the Slave's account is to the Master's. */
  predicate InRatio(raw: real, volume: real, master: Option<real>, slave: Option<real>) {
    && master.Some? && master.value > 0.0 && slave.Some?
    && raw * master.value == volume * slave.value
  }

  /** What each mode promises to ask for. */
  predicate AsksFor(input: Input, raw: real) {
    match input.copyMode
    case FixedLot => input.fixedLot == Some(raw) && raw > 0.0
    case Multiplier => raw == input.masterVolume * input.multiplier
    case BalanceProportional => InRatio(raw, input.masterVolume, input.masterBalance, input.slaveBalance)
    case EquityProportional => InRatio(raw, input.masterVolume, input.masterEquity, input.slaveEquity)
  }

  lemma RatioIff(raw: real, volume: real, master: real, slave: real)
    requires master > 0.0
    ensures raw == volume * (slave / master) <==> raw * master == volume * slave
  {
    Reassociate(volume, slave / master, master);
    assert (slave / master) * master == slave;
    var exact := volume * (slave / master);
    if raw < exact { ScaleLt(raw, exact, master); }
    if raw > exact { ScaleLt(exact, raw, master); }
  }

  lemma RawIsAsked(input: Input, raw: real)
    ensures RawVolume(input) == Volume(raw) <==> AsksFor(input, raw)
  {
    if input.copyMode == BalanceProportional && Positive(input.masterBalance) && input.slaveBalance.Some? {
      RatioIff(raw, input.masterVolume, input.masterBalance.value, input.slaveBalance.value);
    }
    if input.copyMode == EquityProportional && Positive(input.masterEquity) && input.slaveEquity.Some? {
      RatioIff(raw, input.masterVolume, input.masterEquity.value, input.slaveEquity.value);
    }
  }

  /**
   * v is the largest whole number of steps not above raw (up to the epsilon), or the cap; nothing for a negative raw.
   * A step that its two-decimal column stores as zero takes no part.
   */
  ghost predicate SizedTo(input: Input, raw: real, v: real) {
    if input.lotStep <= 0.0 || raw <= 0.0 then v == Min(Max(raw, 0.0), input.maxLot)
    else exists k: int :: LargestSteps(k, raw, input.lotStep) && v == Min(Lots(k, input.lotStep), input.maxLot)
  }

  lemma StepsAreUnique(raw: real, step: real, j: int, k: int)
    requires step > 0.0 && LargestSteps(j, raw, step) && LargestSteps(k, raw, step)
    ensures j == k
  {
    if j < k { LotsMonotone(j + 1, k, step); }
    if k < j { LotsMonotone(k + 1, j, step); }
  }

  lemma SteppedIsSized(input: Input, raw: real, v: real)
    requires OnGrid(input.lotStep, 100.0)
    ensures v == Min(RoundDownToStep(raw, input.lotStep), input.maxLot) <==> SizedTo(input, raw, v)
  {
    if input.lotStep > 0.0 && raw > 0.0 {
      var k := SteppedOnGrid(raw, input.lotStep);
      forall j: int | LargestSteps(j, raw, input.lotStep) ensures j == k {
        StepsAreUnique(raw, input.lotStep, j, k);
      }
    }
  }

  /** An accepted size is what the mode asks for, in whole steps and within the limits: exactly that. */
  lemma SizeIff(input: Input, v: real)
    requires OnGrid(input.lotStep, 100.0)
    ensures CalculateVolume(input) == Volume(v)
            <==> input.minLot <= v && exists raw :: AsksFor(input, raw) && SizedTo(input, raw, v)
  {
    forall raw ensures RawVolume(input) == Volume(raw) <==> AsksFor(input, raw) { RawIsAsked(input, raw); }
    forall raw ensures v == Min(RoundDownToStep(raw, input.lotStep), input.maxLot) <==> SizedTo(input, raw, v) {
      SteppedIsSized(input, raw, v);
    }
  }

  /** An amount that is not there, or not above zero. */
  predicate IsMissing(x: Option<real>) { x.None? || x.value <= 0.0 }

  /** Why a size is refused, on the fields: the first that is missing or not positive, or too small a result. */
  ghost predicate RefusedFor(input: Input, reason: string) {
    match input.copyMode
    case FixedLot => (reason == "FIXED_LOT_NOT_CONFIGURED" && IsMissing(input.fixedLot)) || TooSmall(input, reason)
    case Multiplier => TooSmall(input, reason)
    case BalanceProportional =>
      || (reason == "MASTER_BALANCE_UNKNOWN" && IsMissing(input.masterBalance))
      || (reason == "SLAVE_BALANCE_UNKNOWN" && !IsMissing(input.masterBalance) && input.slaveBalance.None?)
      || TooSmall(input, reason)
    case EquityProportional =>
      || (reason == "MASTER_EQUITY_UNKNOWN" && IsMissing(input.masterEquity))
      || (reason == "SLAVE_EQUITY_UNKNOWN" && !IsMissing(input.masterEquity) && input.slaveEquity.None?)
      || TooSmall(input, reason)
  }

  ghost predicate TooSmall(input: Input, reason: string) {
    reason == "BELOW_MIN_LOT" && exists raw, v :: AsksFor(input, raw) && SizedTo(input, raw, v) && v < input.minLot
  }

  lemma TooSmallIff(input: Input, reason: string)
    requires OnGrid(input.lotStep, 100.0)
    ensures TooSmall(input, reason)
            <==> && reason == "BELOW_MIN_LOT" && RawVolume(input).Volume?
                 && Min(RoundDownToStep(RawVolume(input).volume, input.lotStep), input.maxLot) < input.minLot
  {
    forall raw ensures RawVolume(input) == Volume(raw) <==> AsksFor(input, raw) { RawIsAsked(input, raw); }
    forall raw, v ensures v == Min(RoundDownToStep(raw, input.lotStep), input.maxLot) <==> SizedTo(input, raw, v) {
      SteppedIsSized(input, raw, v);
    }
    if RawVolume(input).Volume? {
      var raw := RawVolume(input).volume;
      assert AsksFor(input, raw) && SizedTo(input, raw, Min(RoundDownToStep(raw, input.lotStep), input.maxLot));
    }
  }

  lemma RefusalIff(input: Input, reason: string)
    requires OnGrid(input.lotStep, 100.0)
    ensures CalculateVolume(input) == Rejected(reason) <==> RefusedFor(input, reason)
  {
    TooSmallIff(input, reason);
  }

  /**
   * An accepted size lies within the Slave's limits and is the largest whole number of steps not above the size asked
   * for (up to the epsilon), or the cap. A step that its two-decimal column stores as zero takes no part: the size
   * asked for goes out as it is, up to the cap.
   */
  lemma {:induction false} AcceptedVolume(input: Input) returns (raw: real, k: int)
    requires CalculateVolume(input).Volume?
    requires OnGrid(input.lotStep, 100.0) && OnGrid(input.maxLot, 100.0)
    ensures AsksFor(input, raw)
    ensures var v := CalculateVolume(input).volume;
            && input.minLot <= v <= input.maxLot
            && (input.lotStep <= 0.0 || raw <= 0.0 ==> v == Min(Max(raw, 0.0), input.maxLot))
            && (input.lotStep > 0.0 && raw > 0.0 ==>
                  && LargestSteps(k, raw, input.lotStep)
                  && v == Min(Lots(k, input.lotStep), input.maxLot)
                  && OnGrid(Lots(k, input.lotStep), 100.0))
  {
    k := 0;
    raw := RawVolume(input).volume;
    RawIsAsked(input, raw);
    if input.lotStep > 0.0 && raw > 0.0 { k := SteppedOnGrid(raw, input.lotStep); }
  }

  /**
   * With step and cap as their two-decimal columns hold them, the stored size is the sent one exactly if the step is
   * not zero, or what is asked for is itself a whole number of hundredths, up to the cap.
   */
  lemma {:induction false} StoredIsSentIff(input: Input, raw: real)
    requires CalculateVolume(input).Volume? && AsksFor(input, raw)
    requires OnGrid(input.lotStep, 100.0) && OnGrid(input.maxLot, 100.0)
    ensures RoundTo(CalculateVolume(input).volume, 100.0) == CalculateVolume(input).volume
            <==> input.lotStep > 0.0 || OnGrid(Min(Max(raw, 0.0), input.maxLot), 100.0)
  {
    var asked, k := AcceptedVolume(input);
    RawIsAsked(input, raw);
    RawIsAsked(input, asked);
    WholeIsOnGrid(0.0, 100.0, 0);
    OnGridRounds(CalculateVolume(input).volume, 100.0);
  }

  /** A configured step of 0.004 is stored as zero; a third of a lot is then sent as 0.3333 and stored as 0.33. */
  lemma ZeroStepStoresLess()
    ensures RoundTo(0.004, 100.0) == 0.0
    ensures var input := Input(Multiplier, 1.0, None, 0.3333, None, None, None, None, 0.01, 10.0,
                               RoundTo(0.004, 100.0));
            CalculateVolume(input) == Volume(0.3333) && RoundTo(0.3333, 100.0) == 0.33
  {
    assert (Units(0.004, 100.0) + 0.5).Floor == 0;
    assert (Units(0.3333, 100.0) + 0.5).Floor == 33;
  }

  lemma LotsMonotone(j: int, k: int, step: real)
    requires j <= k && step > 0.0
    ensures Lots(j, step) <= Lots(k, step)
  {
    ScaleLe(j as real, k as real, step);
  }

  lemma MoreSteps(a: real, b: real, step: real, j: int, k: int)
    requires step > 0.0 && a <= b && LargestSteps(j, a, step) && LargestSteps(k, b, step)
    ensures j <= k && Lots(j, step) <= Lots(k, step)
  {
    if j > k { LotsMonotone(k + 1, j, step); } else { LotsMonotone(j, k, step); }
  }

  lemma StepsNotNegative(raw: real, step: real, k: int)
    requires raw > 0.0 && step > 0.0 && LargestSteps(k, raw, step)
    ensures Lots(k, step) >= 0.0
  {
    ScaleLt(0.0, step, EPSILON);
    if k < 0 { LotsMonotone(k + 1, 0, step); } else { LotsMonotone(0, k, step); }
  }

  lemma RoundToIsMonotone(a: real, b: real, scale: real)
    requires a <= b && scale > 0.0
    ensures RoundTo(a, scale) <= RoundTo(b, scale)
  {
    var x, y := Units(a, scale) + 0.5, Units(b, scale) + 0.5;
    ScaleLe(a, b, scale);
    assert x.Floor <= y.Floor;
    DivideIsMonotone(x.Floor as real, y.Floor as real, scale);
  }

  lemma DivideIsMonotone(a: real, b: real, c: real)
    requires a <= b && c > 0.0
    ensures a / c <= b / c
  {}

  lemma ZeroRounds(scale: real)
    requires scale > 0.0
    ensures RoundTo(0.0, scale) == 0.0
  {
    WholeIsOnGrid(0.0, scale, 0);
    OnGridRounds(0.0, scale);
  }

  /** Whatever the step. */
  lemma RoundDownIsMonotone(a: real, b: real, step: real)
    requires a <= b
    ensures RoundDownToStep(a, step) <= RoundDownToStep(b, step)
  {
    if step > 0.0 && b > 0.0 {
      var k := FloorSteps(b, step);
      StepsNotNegative(b, step, k);
      ZeroRounds(100000000.0);
      RoundToIsMonotone(0.0, Lots(k, step), 100000000.0);
      if a > 0.0 {
        var j := FloorSteps(a, step);
        MoreSteps(a, b, step, j, k);
        RoundToIsMonotone(Lots(j, step), Lots(k, step), 100000000.0);
      }
    }
  }

  ghost predicate NonNegativeRatios(input: Input) {
    && input.multiplier >= 0.0
    && input.slaveBalance.GetOr(0.0) >= 0.0
    && input.slaveEquity.GetOr(0.0) >= 0.0
  }

  lemma RawIsMonotone(input: Input, more: real)
    requires input.masterVolume <= more && NonNegativeRatios(input) && RawVolume(input).Volume?
    ensures RawVolume(input.(masterVolume := more)).Volume?
    ensures RawVolume(input).volume <= RawVolume(input.(masterVolume := more)).volume
  {
    match input.copyMode
    case FixedLot =>
    case Multiplier => ScaleLe(input.masterVolume, more, input.multiplier);
    case BalanceProportional =>
      RatioNonNegative(input.slaveBalance.value, input.masterBalance.value);
      ScaleLe(input.masterVolume, more, input.slaveBalance.value / input.masterBalance.value);
    case EquityProportional =>
      RatioNonNegative(input.slaveEquity.value, input.masterEquity.value);
      ScaleLe(input.masterVolume, more, input.slaveEquity.value / input.masterEquity.value);
  }

  lemma RatioNonNegative(a: real, b: real)
    requires a >= 0.0 && b > 0.0
    ensures a / b >= 0.0
  {
    assert (a / b) * b == a;
  }

  /** A larger Master volume is never refused where a smaller one is accepted, nor sized smaller, whatever the step. */
  lemma {:induction false} SizingIsMonotone(input: Input, more: real)
    requires input.masterVolume <= more && NonNegativeRatios(input) && CalculateVolume(input).Volume?
    ensures CalculateVolume(input.(masterVolume := more)).Volume?
    ensures CalculateVolume(input).volume <= CalculateVolume(input.(masterVolume := more)).volume
  {
    RawIsMonotone(input, more);
    RoundDownIsMonotone(RawVolume(input).volume, RawVolume(input.(masterVolume := more)).volume, input.lotStep);
  }

  lemma OneMoreStep(k: int, step: real)
    ensures Lots(k + 1, step) == Lots(k, step) + step
  {}

  /** A size exceeds what is asked for by at most the epsilon of a step, and unless capped misses less than a step. */
  lemma SizedNear(input: Input, raw: real, v: real)
    requires SizedTo(input, raw, v) && input.lotStep > 0.0 && raw >= 0.0
    ensures v <= raw + EPSILON * input.lotStep
    ensures v < input.maxLot ==> raw < v + input.lotStep
  {
    ScaleLt(0.0, input.lotStep, EPSILON);
    if raw > 0.0 {
      var k: int :| LargestSteps(k, raw, input.lotStep) && v == Min(Lots(k, input.lotStep), input.maxLot);
      OneMoreStep(k, input.lotStep);
    }
  }

  lemma SizeFrom(input: Input, v: real, raw: real)
    requires CalculateVolume(input) == Volume(v) && OnGrid(input.lotStep, 100.0) && AsksFor(input, raw)
    ensures SizedTo(input, raw, v) && input.minLot <= v
  {
    RawIsAsked(input, raw);
    SteppedIsSized(input, raw, v);
  }

  /** An accepted size exceeds what the mode asks for by at most the epsilon of a step. */
  lemma NeverMoreThanShare(input: Input, v: real, raw: real)
    requires CalculateVolume(input) == Volume(v) && OnGrid(input.lotStep, 100.0)
    requires AsksFor(input, raw) && raw >= 0.0
    ensures v <= raw + if input.lotStep > 0.0 then EPSILON * input.lotStep else 0.0
  {
    SizeFrom(input, v, raw);
    if input.lotStep > 0.0 { SizedNear(input, raw, v); }
  }

  /** The account that the proportional modes go by. */
  function MasterWorth(input: Input): Option<real> {
    if input.copyMode == BalanceProportional then input.masterBalance else input.masterEquity
  }

  function SlaveWorth(input: Input): Option<real> {
    if input.copyMode == BalanceProportional then input.slaveBalance else input.slaveEquity
  }

  lemma NotNegative(raw: real, m: real, share: real)
    requires m > 0.0 && raw * m == share && share >= 0.0
    ensures raw >= 0.0
  {
    if raw < 0.0 { ScaleLt(raw, 0.0, m); }
  }

  lemma Distribute(a: real, b: real, c: real)
    ensures (a + b) * c == a * c + b * c
  {}

  lemma ShareFromAbove(v: real, raw: real, over: real, m: real, share: real)
    requires m > 0.0 && raw * m == share && v <= raw + over
    ensures v * m <= share + over * m
  {
    ScaleLe(v, raw + over, m);
    Distribute(raw, over, m);
  }

  lemma ShareFromBelow(raw: real, under: real, m: real, share: real)
    requires m > 0.0 && raw * m == share && raw < under
    ensures share < under * m
  {
    ScaleLt(raw, under, m);
  }

  /** A size in a proportional mode, times the Master's account. */
  function Worth(input: Input, size: real): real
    requires !IsMissing(MasterWorth(input))
  {
    size * MasterWorth(input).value
  }

  lemma ShareIsAsked(input: Input, raw: real, share: real)
    requires input.copyMode == BalanceProportional || input.copyMode == EquityProportional
    requires AsksFor(input, raw) && share == input.masterVolume * SlaveWorth(input).GetOr(0.0)
    ensures !IsMissing(MasterWorth(input)) && SlaveWorth(input).Some? && Worth(input, raw) == share
    ensures share >= 0.0 ==> raw >= 0.0
  {
    if share >= 0.0 { NotNegative(raw, MasterWorth(input).value, share); }
  }

  lemma ShareOfSize(input: Input, raw: real, v: real, share: real)
    requires input.copyMode == BalanceProportional || input.copyMode == EquityProportional
    requires AsksFor(input, raw) && SizedTo(input, raw, v) && input.lotStep > 0.0
    requires share == input.masterVolume * SlaveWorth(input).GetOr(0.0) && share >= 0.0
    ensures !IsMissing(MasterWorth(input)) && SlaveWorth(input).Some?
    ensures Worth(input, v) <= share + Worth(input, EPSILON * input.lotStep)
    ensures v < input.maxLot ==> share < Worth(input, v + input.lotStep)
  {
    ShareIsAsked(input, raw, share);
    SizedNear(input, raw, v);
    ShareFromAbove(v, raw, EPSILON * input.lotStep, MasterWorth(input).value, share);
    if v < input.maxLot { ShareFromBelow(raw, v + input.lotStep, MasterWorth(input).value, share); }
  }

  /**
   * In the proportional modes a size is never worth more of the Slave's account than the Master's volume is of the
   * Master's, up to the epsilon, and unless capped it is less than a step short of that.
   */
  lemma ShareIsProportional(input: Input, v: real, share: real)
    requires input.copyMode == BalanceProportional || input.copyMode == EquityProportional
    requires CalculateVolume(input) == Volume(v) && OnGrid(input.lotStep, 100.0) && input.lotStep > 0.0
    requires share == input.masterVolume * SlaveWorth(input).GetOr(0.0) && share >= 0.0
    ensures !IsMissing(MasterWorth(input)) && SlaveWorth(input).Some?
    ensures Worth(input, v) <= share + Worth(input, EPSILON * input.lotStep)
    ensures v < input.maxLot ==> share < Worth(input, v + input.lotStep)
  {
    SizeIff(input, v);
    var raw :| AsksFor(input, raw) && SizedTo(input, raw, v);
    ShareOfSize(input, raw, v, share);
  }
}
