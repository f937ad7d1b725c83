# Verified model of a forex copy-trading system

The system copies a Master account's trades onto Slave accounts. A connector on the Master's terminal diffs the order
pool into trade events and posts them; the backend deduplicates and publishes each event, decides for every Slave
whether and how large to copy it, keeps a `copy_orders` row per event and Slave, and hands instructions to the Slaves'
connectors, by a push (MT5) or by a poll (MT4). The connectors carry them out and report back. A reconciliation compares
what the backend believes with what the accounts hold. This project models that logic in Dafny and proves what it
guarantees, over all inputs and whole runs.

`dafny verify dfyconfig.toml` checks everything.

## How it is organised

- `Common`: optional values, sums, counts and pigeonhole facts used everywhere.
- `MasterScan`, `MasterEvents`, `MasterReplay`, `MasterEventIds`: the MT4 Master EA. A scan is a method over the two
  snapshots; every event describes an order of the pool, and a reader that replays the events gets the books back.
- `RetryQueue`, `RetryTheorems`: the bounded retry queue of the connectors, an array shifted and shortened in place.
- `Json`, `JsonRoundTrip`, `JsonEscapes`: the flat JSON printer and reader of the MT4 connectors (sections 4 and 7 of RFC 8259,
  objects and strings, without nesting), read back by its own reader and by a standard one.
- `Ingest`: idempotency key, bus and `trade_events`.
- `Connectors`: token authentication behind a cache, heartbeats, the offline sweep.
- `VolumeCalculator`, `RiskChecks`, `CopyDecisions`: sizing and limits, and what they make of a dispatch, said on the
  fields of the Slave, the accounts and the event.
- `CopyOrders`: the rows of one Slave and the queries over them.
- `CopyProtocol`: the steps the backend takes for one Slave. A step is the code between two awaits: the reads a call makes
  before its next write are taken together, and each database write is a step of its own.
- `CopyTable`, `FanOut`, `CopyEngine`: the same steps on the tables of all Slaves, the proof that Slaves do not interfere,
  and the code, a class whose methods are proved against the steps.
- `SlaveTerminal`: the position book of a Slave and its connector.
- `SlaveRun`: whole runs of one Slave: dispatches in any interleaving, repeated deliveries, polls, executions that the
  broker may refuse, results in any order and any number of times.
- `Provenance`, `RowHistory`: every instruction and position goes back to a dispatch entitled to it, and the status of
  every row tells what happened to it.
- `AtMostOnce`, `Ledger`, `LedgerRuns`, `Agreement`, `StopsAndTargets`, `Exposures`, `Limits`, `Transport`: what holds
  over such runs.
- `LateVerdict`, `CopyRuns`, `LateVerdictRuns`, `LimitRuns`, `SendOrder`: when it fails, exactly, and runs, built from the
  start, in which it does.
- `ManySlaves`: all Slaves at once, terminals included; each one's part of any interleaving is a run of its own.
- `ReconciliationEngine`, `FindingMeanings`, `ReconciliationTheorems`, `SilentReports`, `ReconciliationService`: the
  comparison, what each finding means and how often it is reported, what silence means, and the loop over pairs.

A run is *serial* when a Slave polls one at a time. The main results hold over all serial runs: dispatches, deliveries,
polls, executions and results interleave freely, results repeat, and the "offline" verdict of an MT4 dispatch may be
written over an execution already recorded (a *late verdict*). A run is *orderly* when it is serial and has no late
verdict. An MT5 Slave never gets one: its verdict is written before anything is sent.

## What was found

- The "offline" verdict of an MT4 dispatch is read and written after the row is already visible to polls, so it can
  overwrite EXECUTED with FAILED. Once everything is reported the books match if and only if every filled row was last
  written by its report or is harmless (`Agreement.SystemAgreesIff`), and the comparison reports nothing but MISSING_COPY
  if and only if moreover the prices expected of every open copy fit those handed out last
  (`StopsAndTargets.ComparisonIsQuietIff`). Runs that go wrong: `LateVerdictRuns.LateVerdictHappens`, an open position no
  open copy stands for, and `LateVerdictRuns.LateVerdictOutdates`, a copy compared with outdated prices.
- The comment above `findExecutedOpenSlaveTicket` says that a queued CLOSE or MODIFY always resolves. It fails to exactly
  when of all the filled OPENs of its Master ticket none has its report as its last write
  (`LedgerRuns.PollsResolveIff`); `LateVerdictRuns.GuardIsTaken` gives a run in which the poll takes its guard branch.
- A poll reads its row and then updates it. Two polls at once hand the same row out twice
  (`AtMostOnce.OverlappingPollsHandTwice`).
- Two MODIFYs dispatched to an MT5 Slave together can be sent in the other order than their rows were created; the Slave
  then holds the first one's prices and the system expects the second one's (`SendOrder.CrossedSendsHappen`). The
  expectation is read from the row that priced the position exactly when that row is EXECUTED and no EXECUTED OPEN or
  MODIFY of its Master ticket created later was handed out earlier (`StopsAndTargets.ExpectedPricesAreHeld`). MT4 polls
  always keep the order (`StopsAndTargets.PollsKeepOrder`).
- Limits count EXECUTED opens only. OPENs in flight escape them, by up to one less than the number W in flight at once,
  and so do the L copies that late verdicts put in doubt (`Limits.PositionsOvershoot`, `Limits.VolumeOvershoot`). The
  first is reached for every limit and every W (`LimitRuns.LimitsAreReached`), the second happens
  (`LimitRuns.LateVerdictOvershoots`).
- A lot step below half a hundredth is accepted and stored as zero; the size is then sent unstepped and stored rounded.
  `VolumeCalculator.StoredIsSentIff` says exactly when the two differ, `VolumeCalculator.ZeroStepStoresLess` gives a case.
- `compareState` never holds the ticket and the comment of one position against each other: exchanging the comments of
  any two positions of any input goes unnoticed (`ReconciliationTheorems.CrossedCommentsAreSilent`).
- An MT4 heartbeat leaves out a stop or target of zero, so a copy whose recorded price is zero is reported as SLTP_MISMATCH
  although it is right (`StopsAndTargets.OnlyMissingCopiesIff`).
- A scan that sees a lot reduction and a price change of one ticket together reports only the partial close:
  `MasterReplay.ScanReplaysIff` says that this is the only way a replay goes wrong.
- A string that `EscapeString` changes does not survive the reader, which has no unescaping (`JsonRoundTrip.RoundTripIff`).

## Model

| member | source | states |
|---|---|---|
| CopyDecisions.OpenIsAdmittedIff | backend/src/modules/copy-engine/copyEngine.ts:190-274 | An OPEN is admitted, with size v and no ticket, if and only if the Slave is not under emergency stop, the symbol is not blocked and the allowed list is empty or has it, fewer than maxPositions copies are open, v is the size its mode, step, cap and floor give on its own and the Master's account, and the open volume plus v stays within maxExposure |
| CopyDecisions.OpenIsRefusedIff | backend/src/modules/copy-engine/riskChecks.ts:31-53 | Which reason refuses an OPEN, and with which volume, if and only if which field does, in the order they are looked at |
| CopyDecisions.ReductionsAreFree | backend/src/modules/copy-engine/copyEngine.ts:176-194 | A CLOSE or MODIFY is decided by the ticket of its OPEN alone, whatever the Slave's stop, lists, limits and accounts |
| CopyDecisions.AdmittedShare | backend/src/modules/copy-engine/volumeCalculator.ts:38-86 | In a proportional mode an admitted size times the Master's balance (equity) is at most the Master's volume times the Slave's plus the epsilon's worth, and unless capped that is less than a step more |
| Provenance.InstructionsAreOwed | backend/src/modules/copy-engine/copyEngine.ts:337-346 | Over every run with one symbol map, overlapping polls included, every instruction handed out goes back to a dispatch of its own trade event and has that event's action, side, stop and target, the mapped symbol if the event's symbol has a mapping and the event's own if not, and for an OPEN the size given to a Slave that may enter, else the event's volume |
| Provenance.PositionsAreOwed | backend/src/modules/slaves/symbolMapping.service.ts:10-15 | Over every serial run every position held goes back to a dispatched OPEN of a Slave that may enter, under the mapped symbol and with the size |
| Provenance.BarredSlaveStaysFlat | backend/src/modules/copy-engine/riskChecks.ts:32-40 | If every OPEN dispatched over a serial run finds its Slave stopped or barred from the symbol, no OPEN is ever handed out and nothing is held |
| RowHistory.RowsTell | backend/src/modules/copy-engine/copyEngine.ts:276-401 | Over every serial run: PENDING rows were never handed out, SENT ones were and await their result, EXECUTED ones were filled with the ticket they carry, FAILED ones carry the reason, and if refused the volume, that a field of their dispatch, the connection or the broker gave; and conversely what happened decides the status, except that an MT4 Slave may have been found offline |
| Agreement.SystemAgreesIff | backend/src/modules/copy-engine/copyEngine.ts:165-418 | After any serial run with one OPEN per Master ticket in which every execution has been reported, late verdicts, replays and work in flight included: open copies and positions match one to one by ticket and by comment within the volume tolerance, and the comparison reports no missing, unexpected, duplicate, unclosed or mis-sized position, if and only if every filled row was last written by its report or is harmless |
| Agreement.SystemAgreesWithSlave | backend/src/modules/copy-engine/copyEngine.ts:165-418 | So the books always match after an orderly run, and after any serial run of an MT5 Slave |
| Agreement.OpenCopyIsHeld | backend/src/modules/copy-engine/copyOrderQueries.ts:24-50 | Every copy whose OPEN was filled and whose Master ticket no CLOSE was filled for, whatever its row says now, is held under its ticket and with its id in the comment |
| Agreement.HeldIsOpenCopy | backend/src/modules/copy-engine/copyOrderQueries.ts:24-50 | Every position held is such a copy's, with its ticket, its comment and its volume up to half a hundredth of a lot |
| Agreement.FilledCloseHides | backend/src/modules/copy-engine/copyOrderQueries.ts:38-40 | Once a CLOSE has been filled with the ticket of an OPEN, the OPEN's own Master ticket counts as closed |
| LateVerdict.LateVerdictIff | backend/src/modules/copy-engine/copyEngine.ts:292-314 | From a settled state in which the comparison reports nothing but MISSING_COPY, an MT4 "offline" verdict leaves it so if and only if the row it fails is neither an open copy, nor the only EXECUTED CLOSE of its Master ticket, nor the row an open copy's expected prices are read from while the next older row's differ beyond tolerance |
| LateVerdictRuns.LateVerdictHappens | backend/src/modules/connectors/connectorPolling.routes.ts:37-89 | A serial run, built from the start, that ends with a held position no open copy stands for, which the comparison reports |
| LateVerdictRuns.LateVerdictOutdates | backend/src/modules/copy-engine/copyOrderQueries.ts:83-97 | A serial run in which the verdict falls on the last MODIFY: the books match, yet SLTP_MISMATCH is reported against the older prices |
| LateVerdictRuns.GuardIsTaken | backend/src/modules/connectors/connectorPolling.routes.ts:48-73 | A serial run that ends with a waiting MODIFY whose poll finds no ticket |
| AtMostOnce.OneRowPerEvent | backend/src/modules/copy-engine/copyEngine.ts:127-163 | Over every run, overlapping polls included, with any repetition of deliveries and any interleaving, a trade event has at most one row |
| AtMostOnce.EffectsAtMostOnce | backend/src/modules/copy-engine/copyEngine.ts:276-352 | Over every serial run at most one instruction is ever handed out for a trade event |
| AtMostOnce.OverlappingPollsHandTwice | backend/src/modules/connectors/connectorPolling.routes.ts:41-89 | For every admitted MT4 OPEN, two polls that both read before either writes hand its row out twice |
| LedgerRuns.RunKeepsLedger | backend/src/modules/copy-engine/copyEngine.ts:375-401 | Over every serial run a row is EXECUTED only if the result that filled it has arrived, a filled row carries that result's ticket whatever its status, and every CLOSE or MODIFY names a ticket that an OPEN of its Master ticket was filled with |
| LedgerRuns.PollsResolveIff | backend/src/modules/connectors/connectorPolling.routes.ts:48-73 | In every state a serial run reaches, a PENDING CLOSE or MODIFY has an OPEN of its Master ticket that was filled, and its poll takes the guard branch if and only if no filled OPEN of that ticket has its report as its last write |
| LedgerRuns.PollsAlwaysResolve | backend/src/modules/connectors/connectorPolling.routes.ts:48-73 | In every state an orderly run, or a serial run of an MT5 Slave, reaches, a PENDING CLOSE or MODIFY resolves to the ticket of an OPEN of its Master ticket |
| LedgerRuns.FoundIsTarget | backend/src/modules/copy-engine/copyOrderQueries.ts:68-74 | The lookup answers with a ticket that an OPEN of the Master ticket was filled with, and with none if and only if no OPEN of it is EXECUTED |
| Exposures.ReportLeavesExecuted | backend/src/modules/copy-engine/copyEngine.ts:392-401 | A result, first or replayed, leaves every row that was already EXECUTED as it is |
| Ledger.ExecutionKeepsBook | connectors/slave-service/main.py:49-144 | Each execution keeps the book equal to the filled OPENs whose ticket no CLOSE was filled with, each position under its own ticket, comment, symbol and volume |
| Limits.PositionsOvershoot | backend/src/modules/copy-engine/copyEngine.ts:196-286 | Over every serial run with fixed limits, whatever the interleaving, executed-open positions plus OPENs in flight never exceed maxPositions - 1 + W + L, W the most OPENs ever in flight at once, L the copies at stake in late verdicts |
| Limits.VolumeOvershoot | backend/src/modules/copy-engine/riskChecks.ts:48-53 | Their volume together never exceeds maxExposure plus W - 1 + L times maxLot, and half a hundredth where a lot step is stored as zero |
| Limits.OneAtStakeEach | backend/src/modules/copy-engine/copyEngine.ts:292-314 | With one OPEN per Master ticket, L is at most the number of late verdicts that landed on EXECUTED OPENs and CLOSEs |
| Limits.LimitsWithoutVerdicts | backend/src/modules/copy-engine/copyEngine.ts:196-286 | Over orderly runs, and over all serial runs of an MT5 Slave, both bounds hold with L = 0 |
| LimitRuns.LimitsAreReached | backend/src/modules/copy-engine/riskChecks.ts:31-53 | For every maxPositions M of at least 1 and every W of at least 1 an orderly run, never more than W in flight, ends with M - 1 + W copies open or in flight, and with maxExposure at M caps their volume is the bound on volume |
| LimitRuns.LateVerdictOvershoots | backend/src/modules/copy-engine/copyEngine.ts:292-314 | A serial run with maxPositions 1, one late verdict and never more than one OPEN in flight ends with two copies open |
| Limits.CountAdmits | backend/src/modules/copy-engine/riskChecks.ts:41-43 | An OPEN that passes the entry check leaves the open count at most maxPositions with itself counted |
| Limits.SummaryOfTable | backend/src/modules/copy-engine/copyOrderQueries.ts:53-57 | Count and total volume are the size and the volume sum of the set of open rows |
| Transport.TransportsAgree | backend/src/modules/connectors/connectorPolling.routes.ts:78-87 | Over every serial MT4 run with one OPEN per Master ticket and one symbol map, what a poll hands out comes from a dispatch of the row's own event and equals the instruction a push would have sent if and only if volume, stop and target fit their columns |
| Transport.PollReadRebuilds | backend/src/modules/copy-engine/copyEngine.ts:337-346 | The poll rebuilds from a row the push of the decision behind it, numbers rounded to their columns, or nothing if and only if it is no OPEN and no OPEN of its Master ticket is EXECUTED |
| StopsAndTargets.ExpectedPricesAreHeld | backend/src/modules/copy-engine/copyOrderQueries.ts:83-97 | After any serial run in which every execution has been reported, a position holds the prices of the last OPEN or MODIFY handed out and filled for its Master ticket; the expectation is read from that very row if and only if the row is EXECUTED and no EXECUTED OPEN or MODIFY of the ticket created later was handed out earlier, which never happens for MT4; and then stop and target are the expected ones up to half a price unit |
| StopsAndTargets.ComparisonIsQuietIff | backend/src/modules/reconciliation/reconciliationEngine.ts:74-180 | After any such run the whole comparison reports nothing but MISSING_COPY if and only if no late verdict matters and, for every open copy, the prices expected fit those handed out last |
| StopsAndTargets.OnlyMissingCopiesIff | backend/src/modules/reconciliation/reconciliationEngine.ts:119-133 | Without late verdicts and with no row overtaken by an older one of its own Master ticket, nothing but MISSING_COPY is reported if and only if no open copy of an MT4 Slave is expected to have a stop or target of zero |
| StopsAndTargets.PollsKeepOrder | backend/src/modules/connectors/connectorPolling.routes.ts:41-45 | With polls one at a time, rows are handed out in creation order, and everything handed out was created before everything waiting |
| SendOrder.CrossedSendsHappen | backend/src/modules/copy-engine/copyEngine.ts:348-352 | From the start: an OPEN carried through, two MODIFYs of it dispatched together and sent crosswise leave the Slave with the first row's stop and the expectation at the second's |
| SendOrder.CrossedSendsPartThem | backend/src/modules/copy-engine/copyEngine.ts:348-352 | The same after any orderly run that leaves two such MODIFYs waiting, whatever they say |
| FanOut.FanOutIsConfluent | backend/src/modules/copy-engine/copyEngine.ts:84-100 | Any interleaving of the steps of several Slaves, throwing calls included, gives every Slave the same rows, calls and instructions as running the Slaves one after another in any order |
| FanOut.SlavesDoNotInterfere | backend/src/modules/copy-engine/copyEngine.ts:84-100 | Each Slave ends an interleaving as if it had been alone |
| FanOut.StepIsLocal | backend/src/modules/copy-engine/copyEngine.ts:165-418 | One step does to its own Slave what it would do there alone and nothing to any other |
| ManySlaves.SlaveSeesItsRun | backend/src/modules/copy-engine/copyEngine.ts:84-100 | In any interleaving of the events of all Slaves and their terminals, the events of one Slave are a run of its own, and its view, book and results are where that run ends |
| ManySlaves.EverySlaveAgreesIff | backend/src/modules/copy-engine/copyEngine.ts:84-100 | So for every Slave of a fan-out, once its executions are reported, books and positions match if and only if no late verdict on its own rows matters |
| CopyEngine.LiveEngine.DecideCopy | backend/src/modules/copy-engine/copyEngine.ts:176-274 | The imperative checks decide what the protocol's decision says, which `CopyDecisions` gives on the fields |
| CopyEngine.LiveEngine.CheckCopy | backend/src/modules/copy-engine/copyEngine.ts:165-274 | The call is in its Slave's view as the protocol says, with the decision made on the rows of that Slave; no other Slave sees anything of it |
| CopyEngine.LiveEngine.CreateCopyOrder | backend/src/modules/copy-engine/copyEngine.ts:127-163 | The Slave's view has a row for the refusal or for the order to deliver, and only the end of the call when the event already has a row; no other Slave sees anything of it |
| CopyEngine.LiveEngine.DeliverCopy | backend/src/modules/copy-engine/copyEngine.ts:288-366 | The Slave's view is that of the protocol's delivery: verdict, push and status for either platform; no other Slave sees anything of it |
| CopyEngine.LiveEngine.ReadPending | backend/src/modules/connectors/connectorPolling.routes.ts:41-87 | The Slave's view holds its oldest PENDING row with its rebuilt instruction; no other Slave sees anything of it |
| CopyEngine.LiveEngine.AnswerPoll | backend/src/modules/connectors/connectorPolling.routes.ts:51-103 | In the Slave's view the row is SENT and handed over, or FAILED; no other Slave sees anything of it |
| CopyEngine.LiveEngine.HandleSlaveMessage | backend/src/modules/copy-engine/copyEngine.ts:375-401 | In the Slave's view the status is overwritten whatever it was; no other Slave sees anything of it, even if the row named is another's |
| CopyEngine.LiveEngine.Interleave | backend/src/modules/copy-engine/copyEngine.ts:45-49 | Steps of any Slaves in any order leave every Slave with the view its own steps alone would have given it |
| CopyEngine.LiveEngine.FindCopyOrderPositions | backend/src/modules/copy-engine/copyOrderQueries.ts:24-50 | The two filtered lists of the Slave's own rows |
| CopyEngine.LiveEngine.FindOpenPositionsSummary | backend/src/modules/copy-engine/copyOrderQueries.ts:53-57 | Count and sum over the open list |
| CopyEngine.LiveEngine.FindExecutedOpenTicket | backend/src/modules/copy-engine/copyOrderQueries.ts:68-74 | The ticket of the Slave's latest EXECUTED OPEN for the Master ticket |
| CopyEngine.LiveEngine.FindExpectedSlTp | backend/src/modules/copy-engine/copyOrderQueries.ts:83-97 | The prices of the Slave's latest EXECUTED OPEN or MODIFY for the Master ticket |
| CopyOrders.LatestFinds | backend/src/modules/copy-engine/copyOrderQueries.ts:69-72 | A search by creation time descending finds a match with none after it, and none only if there is none |
| CopyOrders.OldestFinds | backend/src/modules/connectors/connectorPolling.routes.ts:41-45 | A search by creation time ascending finds a match with none before it |
| CopyOrders.OpenCopiesAre | backend/src/modules/copy-engine/copyOrderQueries.ts:38-47 | The open list holds exactly the EXECUTED OPENs whose Master ticket has no EXECUTED CLOSE |
| CopyOrders.TicketIsOfLatest | backend/src/modules/copy-engine/copyOrderQueries.ts:68-74 | A CLOSE or MODIFY acts on the ticket of the latest EXECUTED OPEN of its Master ticket, an empty one counting as none |
| CopyOrders.StoredIsNearest | backend/src/db/prisma/schema.prisma:202-242 | What the volume and price columns give back is a whole number of hundredths or of 1e-5, and is what was written if and only if that was one |
| CopyOrders.PersistedFits | backend/src/modules/ingest/ingest.service.ts:12-43 | So are the numbers of a persisted trade event, which are there if and only if they were sent |
| SlaveTerminal.Terminal.HandleInstruction | backend/tools/simulate-slave.ts:83-128 | Pushing, splicing and updating the first match leave the book the execution function says, tickets staying distinct, and the reply names the ticket |
| SlaveTerminal.ExecutionStaysDistinct | connectors/slave-service/main.py:49-144 | No execution makes a ticket held twice |
| ReconciliationEngine.CompareState | backend/src/modules/reconciliation/reconciliationEngine.ts:74-180 | The Map-based comparison reports, as a multiset, exactly the findings of the rule-by-rule specification of all seven kinds |
| FindingMeanings.ReportedAsDue | backend/src/modules/reconciliation/reconciliationEngine.ts:74-180 | Each of the seven kinds of finding, with each of its fields, is reported exactly as often as the compared lists have places that call for it, said on their fields alone |
| FindingMeanings.MissingIsCounted | backend/src/modules/reconciliation/reconciliationEngine.ts:80-92 | MISSING_COPY is reported for a Master position as often as it is listed if no open and no closed copy has its ticket, and else never |
| SilentReports.MissingAtEnd | backend/src/modules/reconciliation/reconciliationEngine.ts:80-92 | At the end of any run, MISSING_COPY is reported for a Master position as often as it is listed if no OPEN and no CLOSE of its ticket is EXECUTED, and else never |
| SilentReports.UnknownIsReported | backend/src/modules/reconciliation/reconciliationEngine.ts:150-166 | At the end of any run a position whose comment names no open copy is reported with its own ticket, symbol, volume and comment |
| SilentReports.SilentIff | backend/src/modules/reconciliation/reconciliationEngine.ts:74-180 | After any settled serial run the report is empty if and only if no late verdict matters, the prices expected of every open copy fit those handed out last, and every Master position has an EXECUTED OPEN or CLOSE |
| ReconciliationEngine.ExtractCopyId | backend/src/modules/reconciliation/reconciliationEngine.ts:66-72 | The id is what follows the prefix, if it is not empty and on one line |
| ReconciliationTheorems.OrderDoesNotMatter | backend/src/modules/reconciliation/reconciliationEngine.ts:74-180 | Permuting the four lists leaves the multiset of findings the same |
| ReconciliationTheorems.PositionsArePartitioned | backend/src/modules/reconciliation/reconciliationEngine.ts:150-166 | Every position is either unexpected or counted in the group of exactly one open copy |
| ReconciliationTheorems.AgreementIff | backend/src/modules/reconciliation/reconciliationEngine.ts:94-177 | With unique ids and tickets, nothing but MISSING_COPY and SLTP_MISMATCH is reported if and only if copies and positions match one to one by ticket and by comment, volumes are within tolerance and nothing closed is held |
| ReconciliationTheorems.SilenceBoundsExposure | backend/src/modules/copy-engine/copyOrderQueries.ts:53-57 | A silent comparison of n copies puts the Slave's total volume within n tolerances of the total the exposure check is fed |
| ReconciliationTheorems.CrossedCommentsAreSilent | backend/src/modules/reconciliation/reconciliationEngine.ts:148-166 | Exchanging the comments of any two positions of any input never makes a silent comparison report or a reporting one silent, although in a silent input at most one of the two arrangements has comments that belong to their tickets |
| ReconciliationService.Reconciliation.RunReconciliation | backend/src/modules/reconciliation/reconciliation.service.ts:36-102 | Every scanned pair holds exactly its findings, all other pairs what they held, scanned and skipped add up to the Slaves selected, and the created count is the sum over pairs |
| ReconciliationService.Reconciliation.ExpectedSlTpOf | backend/src/modules/reconciliation/reconciliation.service.ts:62-65 | One entry per open copy that has an expectation |
| ReconciliationService.ReplaceIsLocal | backend/src/modules/reconciliation/reconciliation.service.ts:82-93 | Deleting and inserting a pair's findings leaves every other pair's findings as they were |
| ReconciliationService.RerunChangesNothing | backend/src/modules/reconciliation/reconciliation.service.ts:30-35 | A rerun on the same inputs reports the same counts and leaves every pair with the same findings |
| ReconciliationService.SettledPairIsQuietIff | backend/src/modules/reconciliation/reconciliation.service.ts:58-80 | A pair whose Slave has settled in a serial run gets nothing but MISSING_COPY if and only if no late verdict matters and the expected prices fit those handed out last |
| ReconciliationService.SettledPairIsSilentIff | backend/src/modules/reconciliation/reconciliation.service.ts:58-80 | It gets no finding at all if and only if moreover every position of the Master's snapshot has been copied |
| ReconciliationService.ScannedIff | backend/src/modules/reconciliation/reconciliation.service.ts:25-56 | A pair is scanned if and only if its Slave passes both filters, an empty or missing one letting all through, and both snapshots exist and are no older than the staleness |
| ReconciliationService.PairsAreCounted | backend/src/modules/reconciliation/reconciliation.service.ts:47-56 | As many pairs are scanned as are asked for and recent, and as many skipped as are asked for and not |
| VolumeCalculator.SizeIff | backend/src/modules/copy-engine/volumeCalculator.ts:24-86 | v is accepted if and only if it is at least the floor and is what the mode asks for (the fixed lot, the multiple, or raw with raw times the Master's account equal to the Master's volume times the Slave's) in whole steps up to the cap |
| VolumeCalculator.RefusalIff | backend/src/modules/copy-engine/volumeCalculator.ts:28-76 | Each reason is given if and only if which field is missing or not positive, or the size is below the floor |
| VolumeCalculator.ShareIsProportional | backend/src/modules/copy-engine/volumeCalculator.ts:38-67 | The bounds of a proportional size, multiplied out: at most the share plus the epsilon of a step, and unless capped less than a step short of it |
| VolumeCalculator.AcceptedVolume | backend/src/modules/copy-engine/volumeCalculator.ts:24-86 | With step and cap as their two-decimal columns hold them, an accepted size lies within the limits and is the largest number of steps not above what the mode asks for up to the epsilon, or the cap, and on the grid; with a step stored as zero, what is asked for or the cap |
| VolumeCalculator.SizingIsMonotone | backend/src/modules/copy-engine/volumeCalculator.ts:24-78 | Whatever the step, a larger Master volume is never refused where a smaller one is accepted, nor sized smaller |
| VolumeCalculator.NeverMoreThanShare | backend/src/modules/copy-engine/volumeCalculator.ts:67-86 | An accepted size exceeds what the mode asks for, of which `AsksFor` says what it is, by at most the epsilon of a step |
| VolumeCalculator.StoredIsSentIff | backend/src/db/prisma/schema.prisma:242 | With step and cap as their columns hold them, the stored size equals the sent one if and only if the step is not zero or what is asked for, up to the cap, is a whole number of hundredths |
| VolumeCalculator.ZeroStepStoresLess | backend/src/modules/slaves/slave.schema.ts:10 | A configured step of 0.004 becomes zero; a size of 0.3333 is sent and 0.33 stored |
| MasterScan.MasterEA.ScanAndDetect | connectors/master-ea-mt4/ForexCopyMasterEA.mq4:169-182 | One scan sends exactly the events of the diff and leaves the current books as snapshots |
| MasterScan.MasterEA.DetectOpenChanges | connectors/master-ea-mt4/ForexCopyMasterEA.mq4:195-226 | OPEN, PARTIAL_CLOSE, MODIFY and CLOSE events in order |
| MasterScan.MasterEA.DetectPendingChanges | connectors/master-ea-mt4/ForexCopyMasterEA.mq4:295-325 | PENDING_OPEN, PENDING_MODIFY and PENDING_CANCEL events in order |
| MasterScan.MasterEA.BuildCurrentSnapshots | connectors/master-ea-mt4/ForexCopyMasterEA.mq4:134-167 | The two books are the market and the pending orders of the pool, in pool order |
| MasterScan.FindByTicket | connectors/master-ea-mt4/ForexCopyMasterEA.mq4:126-132 | The first index with the ticket, or -1 if there is none |
| MasterEvents.EventsDescribeOrders | connectors/master-ea-mt4/ForexCopyMasterEA.mq4:195-347 | Over every run of scans, every event reports a difference between two pools scanned one after the other: a new, reduced, repriced or gone order of its ticket, with that order's symbol, side (BUY if and only if it buys) and amounts, a zero amount left out |
| MasterEvents.RunMirrorsThePool | connectors/master-ea-mt4/ForexCopyMasterEA.mq4:114-118 | Over every run, replaying all events gives a position for exactly the Buy and Sell orders of the last pool and a pending order for exactly the four pending kinds, with their symbol, lots and side: BUY if and only if Buy, BuyLimit or BuyStop |
| MasterReplay.ScanReplay | connectors/master-ea-mt4/ForexCopyMasterEA.mq4:195-325 | What replaying one scan's events does to every ticket of the reader's two books |
| MasterReplay.ScanReplaysIff | connectors/master-ea-mt4/ForexCopyMasterEA.mq4:211-218 | Replaying a scan turns the old books into the current ones if and only if no ticket changed lots and prices at once |
| MasterReplay.RunKeepsTicketsAndLots | connectors/master-ea-mt4/ForexCopyMasterEA.mq4:169-226 | Over every run of scans, replaying all events from the baseline keeps tickets, symbols, sides, lots and pending orders right |
| MasterReplay.RunReplaysExactly | connectors/master-ea-mt4/ForexCopyMasterEA.mq4:169-226 | Over every run without a mixed change, the replayed books are exactly the current ones |
| MasterEventIds.IdTextInjective | connectors/master-ea-mt4/ForexCopyMasterEA.mq4:260-347 | Two event ids are the same text only if kind, ticket and sequence number are the same |
| MasterEventIds.IdTellsKind | connectors/master-ea-mt4/ForexCopyMasterEA.mq4:260-347 | How an event id starts tells its kind, for each of the seven |
| MasterEventIds.EventIdsAreDistinct | connectors/master-ea-mt4/ForexCopyMasterEA.mq4:260-347 | Over every run in which tickets never return, all event ids are pairwise distinct |
| RetryQueue.RetryClient.ProcessRetryQueue | connectors/master-ea-mt4/Include/ForexCopy/Http.mqh:114-150 | The backward loop with in-place shifting leaves the order-preserving filter-and-update of the old queue, posts every due item once, newest first, and touches no other |
| RetryQueue.RetryClient.Enqueue | connectors/master-ea-mt4/Include/ForexCopy/Http.mqh:64-81 | A full queue loses its oldest item, nothing else moves |
| RetryQueue.RetryClient.SendEvent | connectors/master-ea-mt4/Include/ForexCopy/Http.mqh:94-105 | An accepted event is acknowledged, any other queued |
| RetryTheorems.EveryEventIsAccountedFor | connectors/master-ea-mt4/Include/ForexCopy/Http.mqh:64-150 | Over every run the queue stays within its capacity, and every event given is acknowledged, queued, evicted or given up, as often as it was given |
| RetryTheorems.AtMostNinePosts | connectors/slave-ea-mt4/Include/ForexCopy/SlaveHttp.mqh:112-162 | No event is posted more than nine times |
| RetryTheorems.QueuedItemsAreYoung | connectors/master-ea-mt4/Include/ForexCopy/Http.mqh:114-150 | If passes are at most T ms apart, nothing queued is older than 72000 + 8 T ms |
| RetryTheorems.GivenUpOnlyOnNinth | connectors/master-ea-mt4/Include/ForexCopy/Http.mqh:136-146 | Over every run that gives each event once, a given-up event was posted exactly nine times, none of them accepted, and is queued no more |
| RetryTheorems.GivenUpIsOld | connectors/master-ea-mt4/Include/ForexCopy/Http.mqh:114-150 | No event is given up before it is 72 seconds old |
| RetryTheorems.RetriesAreSpaced | connectors/master-ea-mt4/Include/ForexCopy/Http.mqh:148-149 | The k-th retry of an event comes no sooner than 1000 k (k + 1) ms after it was queued |
| RetryTheorems.OldestIsEvicted | connectors/master-ea-mt4/Include/ForexCopy/Http.mqh:64-81 | Over every run the queue keeps the order of giving, and whatever was evicted was given before all that is queued |
| RetryTheorems.NewestPostedFirst | connectors/master-ea-mt4/Include/ForexCopy/Http.mqh:119-125 | A pass posts the due events newest first |
| Json.JsonBuilder.AppendKeyRaw | connectors/slave-ea-mt4/Include/ForexCopy/Json.mqh:18-24 | The body stays the comma-separated items added so far |
| Json.JsonReader.ScanValue | connectors/slave-ea-mt4/Include/ForexCopy/JsonReader.mqh:28-57 | The two scanning loops find the value the specification says |
| Json.JsonReader.GetString | connectors/slave-ea-mt4/Include/ForexCopy/JsonReader.mqh:72-80 | The unquoted value, or the default |
| JsonRoundTrip.RoundTrip | connectors/slave-ea-mt4/Include/ForexCopy/JsonReader.mqh:21-80 | For distinct alphabetic keys and values that escaping leaves alone, every printed value is read back exactly and no other key is found, whatever the values look like |
| JsonRoundTrip.RoundTripIff | connectors/slave-ea-mt4/Include/ForexCopy/Json.mqh:26-34 | A string survives if and only if it has no quote, backslash, newline or carriage return |
| JsonEscapes.DecodingUndoesEscaping | connectors/slave-ea-mt4/Include/ForexCopy/Json.mqh:26-34 | A reader that decodes the escapes of section 7 of RFC 8259 gets every printed string back, but for its carriage returns |
| JsonRoundTrip.ReadField | connectors/slave-ea-mt4/Include/ForexCopy/JsonReader.mqh:21-58 | What the reader answers for any key over any printed object |
| Ingest.IngestService.PostTradeEvent | backend/src/modules/ingest/ingest.routes.ts:39-70 | Ignored if and only if the event was published less than the time to live ago, and then nothing changes; otherwise it is published once and, until the time to live has passed, the only new duplicate; what every run keeps is kept |
| Ingest.IngestService.PersistTradeEvent | backend/src/modules/ingest/ingest.service.ts:12-43 | The first successful write of an event id gives it its row, with the event's content; every other row, key and publication stays as it is |
| Ingest.DuplicateIff | backend/src/modules/ingest/ingest.routes.ts:42-46 | A request is ignored if and only if its event was published less than the time to live ago |
| Ingest.PublicationsAreApart | backend/src/modules/ingest/ingest.routes.ts:42-56 | Over every run two publications of one event are at least the time to live apart |
| Ingest.FirstPersistedWins | backend/src/modules/ingest/ingest.service.ts:12-43 | A trade_events row is a published event's and never changes again |
| Connectors.ConnectorService.AuthenticateConnector | backend/src/modules/connectors/connector.service.ts:32-56 | The answer is what the table says now, cached or not |
| Connectors.CacheIsInvisible | backend/src/modules/connectors/connector.service.ts:27-56 | Over every run of registrations, authentications, heartbeats and sweeps, whatever expires, all answers are those of the service without a cache |
| Connectors.OwnersNeverChange | backend/src/modules/connectors/connector.service.ts:58-120 | From its registration on a token answers the same |
| Connectors.RegisteredAnswers | backend/src/modules/connectors/connector.service.ts:46-88 | From its registration on, whatever follows, a token registered for a Master answers with that Master's id as MASTER, one for a Slave with that Slave's id as SLAVE; a Master with an empty id would answer as SLAVE |
| Connectors.HeartbeatIsExact | backend/src/modules/connectors/connector.service.ts:90-120 | A heartbeat sets its own connector ONLINE as of now and touches no other |
| Connectors.OnlineIsHeard | backend/src/modules/connectors/connector.service.ts:58-151 | Over every run only connectors that were heard from are ONLINE |
| Connectors.SweepIsExact | backend/src/modules/connectors/connector.service.ts:141-151 | After a sweep a connector is online if and only if it was and has been heard from within the threshold |

## Left out

- Fastify routing, zod parsing, JWT and bcrypt, Prisma, Redis and WebSocket transport: only their effect is modelled (rows with a unique key, a key with an expiry, ordered channels, arbitrary status codes).
- Admin routes, dashboard counts, latency figures, audit log, broadcasts to dashboards and the frontend: no property of the core depends on them.
- `connectors/master-ea` (MT5) and the duplicate copies of the connector classes: the MT5 EA forwards platform callbacks without state of its own.
- MT4 and MT5 terminal calls, prices from history on CLOSE and PARTIAL_CLOSE events, execution prices and broker behaviour: a Slave is a book whose broker may refuse any order and never reuses a ticket.
- Comment truncation by brokers, and a side missing from an OPEN instruction: not part of the position book.
- Copying of PARTIAL_CLOSE and PENDING events, daily loss and drawdown limits: the engine does not implement them.
- IEEE-754 rounding: sizes and prices are exact reals, the 1e-9 epsilon and the column rounding are explicit; the Master scan uses whole hundredths of a lot and 1e-5 points.
- Lost instructions and lost results: a run hands every instruction to the connector and a result may be late or repeated but is produced.
- Reads between two writes of one call are one step: the two list queries of the summary, the row and ticket reads of a poll, and the read and update of a result are each taken together.
- The 250 ms wait for a trade event that is not persisted yet, and the event dropped after it: a dispatch starts from an event that is there.
- Two rows created in the same millisecond: creation order is a total order.
- Insertion order of a JavaScript Map: duplicates are reported in some order of copy ids, findings are compared as multisets.
- Number formatting of the MT4 printer and numeric parsing of the reader: numbers are printed and read as given texts.
- `StringSubstr` with a length of zero, and tick counters that wrap: not reachable in the inputs modelled.
- Changes to the engine's data made while a reconciliation is under way: a run reads one state of the rows.
- ReconciliationEngine.CompareState: the order of the findings is not stated, only their multiset.
