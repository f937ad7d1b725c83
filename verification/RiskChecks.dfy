/** The limits that gate an OPEN (backend/src/modules/copy-engine/riskChecks.ts). */
module RiskChecks {
  import opened Common

  datatype Verdict = Pass | Denied(reason: string)

  function CheckEntryAllowed(
      emergencyStop: bool, allowedSymbols: seq<string>, blockedSymbols: seq<string>, symbol: string,
      maxPositions: Option<int>, currentOpenPositions: nat): Verdict {
    if emergencyStop then Denied("EMERGENCY_STOP_ACTIVE")
    else if symbol in blockedSymbols then Denied("SYMBOL_BLOCKED")
    else if |allowedSymbols| > 0 && symbol !in allowedSymbols then Denied("SYMBOL_NOT_ALLOWED")
    else if maxPositions.Some? && currentOpenPositions >= maxPositions.value then
      Denied("MAX_POSITIONS_REACHED")
    else Pass
  }

  function CheckExposureAllowed(maxExposure: Option<real>, currentOpenExposure: real, incomingVolume: real): Verdict {
    if maxExposure.Some? && currentOpenExposure + incomingVolume > maxExposure.value then
      Denied("MAX_EXPOSURE_EXCEEDED")
    else Pass
  }
}
