/** What copyToSlave decides, on the fields that it reads. */
module CopyDecisions {
  import opened Common
  import opened ReconciliationEngine
  import opened RiskChecks
  import opened CopyOrders
  import opened CopyProtocol
  import V = VolumeCalculator

  // ---------------------------------------------------------------- what keeps an OPEN out

  predicate SymbolAllowed(slave: Slave, symbol: string) {
    slave.allowedSymbols == [] || symbol in slave.allowedSymbols
  }

  predicate MayEnter(slave: Slave, symbol: string) {
    !slave.emergencyStop && symbol !in slave.blockedSymbols && SymbolAllowed(slave, symbol)
  }

  ghost predicate HasRoom(slave: Slave, t: Table) {
    slave.maxPositions.Some? ==> OpenCount(t) < slave.maxPositions.value
  }

  ghost predicate StaysWithin(slave: Slave, t: Table, volume: real) {
    slave.maxExposure.Some? ==> TotalVolume(t) + volume <= slave.maxExposure.value
  }

  // ---------------------------------------------------------------- how large it is

  /** raw is what the Slave's mode asks for, given what the Master traded. */
  predicate Asks(slave: Slave, account: MasterAccount, volume: real, raw: real) {
    match slave.copyMode
    case FixedLot => slave.fixedLot == Some(raw) && raw > 0.0
    case Multiplier => raw == volume * slave.multiplier
    case BalanceProportional => V.InRatio(raw, volume, account.balance, slave.balance)
    case EquityProportional => V.InRatio(raw, volume, account.equity, slave.equity)
  }

  /** v is raw in whole steps, up to the cap. */
  ghost predicate InSteps(slave: Slave, raw: real, v: real) {
    if slave.lotStep <= 0.0 || raw <= 0.0 then v == V.Min(V.Max(raw, 0.0), slave.maxLot)
    else exists k: int :: V.LargestSteps(k, raw, slave.lotStep) && v == V.Min(V.Lots(k, slave.lotStep), slave.maxLot)
  }

  /** v is the size for a trade of this volume; an event without a volume counts as zero. */
  ghost predicate IsSize(slave: Slave, account: MasterAccount, volume: Option<real>, v: real) {
    slave.minLot <= v && exists raw :: Asks(slave, account, volume.GetOr(0.0), raw) && InSteps(slave, raw, v)
  }

  lemma AskedIsSized(slave: Slave, account: MasterAccount, volume: Option<real>, raw: real, v: real)
    ensures var input := SizingInput(slave, account, volume);
            && (V.AsksFor(input, raw) <==> Asks(slave, account, volume.GetOr(0.0), raw))
            && (V.SizedTo(input, raw, v) <==> InSteps(slave, raw, v))
  {}

  lemma SizingIff(slave: Slave, account: MasterAccount, volume: Option<real>, v: real)
    requires V.OnGrid(slave.lotStep, VOLUME_SCALE)
    ensures V.CalculateVolume(SizingInput(slave, account, volume)) == V.Volume(v)
            <==> IsSize(slave, account, volume, v)
  {
    var input := SizingInput(slave, account, volume);
    V.SizeIff(input, v);
    forall raw
      ensures V.AsksFor(input, raw) && V.SizedTo(input, raw, v)
              <==> Asks(slave, account, volume.GetOr(0.0), raw) && InSteps(slave, raw, v)
    {
      AskedIsSized(slave, account, volume, raw, v);
    }
  }

  /** Why no size can be given: the first field that is missing or not positive, or too small a result. */
  ghost predicate NoSizeFor(slave: Slave, account: MasterAccount, volume: Option<real>, reason: string) {
    || (reason == "FIXED_LOT_NOT_CONFIGURED" && slave.copyMode == V.FixedLot && V.IsMissing(slave.fixedLot))
    || (reason == "MASTER_BALANCE_UNKNOWN" && slave.copyMode == V.BalanceProportional && V.IsMissing(account.balance))
    || (reason == "SLAVE_BALANCE_UNKNOWN" && slave.copyMode == V.BalanceProportional && !V.IsMissing(account.balance)
        && slave.balance.None?)
    || (reason == "MASTER_EQUITY_UNKNOWN" && slave.copyMode == V.EquityProportional && V.IsMissing(account.equity))
    || (reason == "SLAVE_EQUITY_UNKNOWN" && slave.copyMode == V.EquityProportional && !V.IsMissing(account.equity)
        && slave.equity.None?)
    || (reason == "BELOW_MIN_LOT" && exists raw, v ::
          Asks(slave, account, volume.GetOr(0.0), raw) && InSteps(slave, raw, v) && v < slave.minLot)
  }

  lemma NoSizeIff(slave: Slave, account: MasterAccount, volume: Option<real>, reason: string)
    requires V.OnGrid(slave.lotStep, VOLUME_SCALE)
    ensures V.CalculateVolume(SizingInput(slave, account, volume)) == V.Rejected(reason)
            <==> NoSizeFor(slave, account, volume, reason)
  {
    var input := SizingInput(slave, account, volume);
    V.RefusalIff(input, reason);
    forall raw, v
      ensures V.AsksFor(input, raw) && V.SizedTo(input, raw, v) && v < input.minLot
              <==> Asks(slave, account, volume.GetOr(0.0), raw) && InSteps(slave, raw, v) && v < slave.minLot
    {
      AskedIsSized(slave, account, volume, raw, v);
    }
  }

  // ---------------------------------------------------------------- the decision

  /**
   * An OPEN is admitted, with this size and no ticket, exactly if the Slave is not stopped, the symbol is not blocked
   * and is allowed, there is room for one more position, this is the size, and it stays within the exposure limit.
   */
  lemma OpenIsAdmittedIff(slave: Slave, account: MasterAccount, t: Table, e: TradeEvent, v: real)
    requires e.action == Open && V.OnGrid(slave.lotStep, VOLUME_SCALE)
    ensures Decide(slave, account, t, e) == Admit(Some(v), None)
            <==> && MayEnter(slave, e.symbol) && HasRoom(slave, t)
                 && IsSize(slave, account, e.volume, v) && StaysWithin(slave, t, v)
    ensures var d := Decide(slave, account, t, e); d.Admit? ==> d.volume.Some? && d.slaveTicket.None?
  {
    SizingIff(slave, account, e.volume, v);
  }

  /** The reasons for a refusal, in the order they are looked for. */
  ghost predicate RefusedFor(
      slave: Slave, account: MasterAccount, t: Table, e: TradeEvent, reason: string, volume: Option<real>) {
    if slave.emergencyStop then reason == "EMERGENCY_STOP_ACTIVE" && volume.None?
    else if e.symbol in slave.blockedSymbols then reason == "SYMBOL_BLOCKED" && volume.None?
    else if !SymbolAllowed(slave, e.symbol) then reason == "SYMBOL_NOT_ALLOWED" && volume.None?
    else if !HasRoom(slave, t) then reason == "MAX_POSITIONS_REACHED" && volume.None?
    else
      || (NoSizeFor(slave, account, e.volume, reason) && volume == e.volume)
      || (reason == "MAX_EXPOSURE_EXCEEDED" && volume.Some? && IsSize(slave, account, e.volume, volume.value)
          && !StaysWithin(slave, t, volume.value))
  }

  lemma OpenIsRefusedIff(slave: Slave, account: MasterAccount, t: Table, e: TradeEvent, reason: string,
                         volume: Option<real>)
    requires e.action == Open && V.OnGrid(slave.lotStep, VOLUME_SCALE)
    ensures Decide(slave, account, t, e) == Refuse(reason, volume)
            <==> RefusedFor(slave, account, t, e, reason, volume)
  {
    NoSizeIff(slave, account, e.volume, reason);
    forall v ensures V.CalculateVolume(SizingInput(slave, account, e.volume)) == V.Volume(v)
                     <==> IsSize(slave, account, e.volume, v)
    {
      SizingIff(slave, account, e.volume, v);
    }
  }

  /** Reducing risk is never held back: a CLOSE or MODIFY is decided without looking at the Slave or the account. */
  lemma ReductionsAreFree(slave: Slave, account: MasterAccount, t: Table, e: TradeEvent)
    requires e.action != Open
    ensures var d, ticket := Decide(slave, account, t, e), FindExecutedOpenSlaveTicket(t, e.masterTicket);
            && (ticket.Some? ==> d == Admit(e.volume, ticket))
            && (ticket.None? ==> d == Refuse("NO_MATCHING_OPEN_COPY", None))
  {}

  // ---------------------------------------------------------------- proportional modes

  /** The two accounts that a proportional mode compares. */
  function MasterWorth(slave: Slave, account: MasterAccount): Option<real> {
    if slave.copyMode == V.BalanceProportional then account.balance else account.equity
  }

  function SlaveWorth(slave: Slave): Option<real> {
    if slave.copyMode == V.BalanceProportional then slave.balance else slave.equity
  }

  /**
   * What an admitted OPEN is worth of the Master's account is at most what the Master's volume is worth of the Slave's,
   * up to the epsilon, and less than a step short of it unless capped.
   */
  lemma AdmittedShare(slave: Slave, account: MasterAccount, t: Table, e: TradeEvent, v: real, share: real)
    requires e.action == Open && slave.copyMode in {V.BalanceProportional, V.EquityProportional}
    requires V.OnGrid(slave.lotStep, VOLUME_SCALE) && slave.lotStep > 0.0
    requires Decide(slave, account, t, e) == Admit(Some(v), None)
    requires share == e.volume.GetOr(0.0) * SlaveWorth(slave).GetOr(0.0) && share >= 0.0
    ensures !V.IsMissing(MasterWorth(slave, account)) && SlaveWorth(slave).Some?
    ensures var m := MasterWorth(slave, account).value;
            && v * m <= share + V.EPSILON * slave.lotStep * m
            && (v < slave.maxLot ==> share < (v + slave.lotStep) * m)
  {
    V.ShareIsProportional(SizingInput(slave, account, e.volume), v, share);
  }
}
