# Verified model of the charging back end

The project models how charger messages become money in an EV-charging back end, and the two command
protocols around it, and proves what holds over all inputs, runs and interleavings.

- **Billing arithmetic** (`Money`, `Interpolation`, `Segmentation`, `DailyTotals`, `Bands`, `IdleFee`,
  `Invoicing`, `InvoiceCreation`, `TariffPrices`, `InvoiceConditions` and their proof modules): a session is cut at tariff-band and midnight
  boundaries, meter readings are interpolated, each piece is priced half-up, and occupation is charged by
  started minutes per local day. The segments are proved against a microsecond-by-microsecond account.
- **Session evidence** (`MeterStore`, `SampleStorage`, `Occupation*`, `SessionRuns`, `ReviewReasons`,
  `EvidenceProofs`): late and live samples, connector statuses and the end of the transaction (OCPP 1.6 sections
  4.7, 4.9 and 4.10), which message opened and which confirmed the occupation that is billed, and which invoice
  rejections a session's own history rules out.
- **Settlement and audit** (`Settlement*`, `Audit*`, `LateSamples`, `HarmlessSamples`, `ClosureQueue`): closing
  transactions, the wallet ledger, the reconciliation run and what it makes of samples that arrive after
  settlement, the recovery scan and the hint queue.
- **Remote configuration** (`Configuration*`): durable intents with leases and processing tokens (OCPP 1.6
  sections 5.3, 5.8 and 5.14).
- **Driver start requests** (`DriverStart*`): reply, real start, expiry and refusal racing on one row
  (OCPP 1.6 section 5.11).
- **Alerts**, the **price oracle** and the **backup archive format**.

Conventions. Instants are integer microseconds; energy is integer micro-Wh, the resolution of the stored
columns; amounts are integer VND. A station's clock is a fixed offset from UTC. A database transaction under
its row lock is one atomic step, a crash or rollback leaves the state unchanged, and concurrency is an
arbitrary sequence of such steps. Classes hold the rows that the code updates in place; each method is proved
equal to a function on the row values, and the theorems are about those functions and their runs: what every run
keeps (the `Proofs` modules) and what each message or transaction leads to (the `Outcome` and `Meaning` modules). Clocks,
charger replies, connection state, identifiers and the checks of other components are parameters of the steps.

`dafny verify dfyconfig.toml` checks the whole project.

## Where the code does not do what one would expect

- A late sample accepted after the stop can exceed the stop meter without any flag; the invoice is then
  refused as `invoice_meter_decreased`. `EvidenceProofs.LateSampleDefeatsReadings` gives the run and
  `EvidenceProofs.EndedReadingsDecided` the exact condition.
- The archived branch of the configuration worker leaves the processing token in place, so a finished intent
  can become active again. `ConfigurationProofs.ArchivedIntentReopens` gives the run and
  `ConfigurationProofs.FinalIff` the exact condition.
- A recovered scan can itself open an alert, when every triggering error lies exactly on the edge of the window.
  `AlertEdge.EdgeReopens` gives a run and `AlertEdge.UnrecoveredReopeningIff` the exact condition over the
  histories a charger can have.
- Creation times of start requests are read before the locks, so a start can be linked to an older, given-up
  request. `DriverStartProofs.BackwardClockMisses` gives the run and `DriverStartProofs.StartFindsLiveIff` the
  exact condition.
- A settled session whose charger recovers can still store late samples, and the audit then reprices it.
  `LateSampleRun.LateSampleBreaksAudit` gives a session whose audit then finds an issue, and
  `LateSamples.LateSamplesAudited` the exact condition for silence. Samples kept away from the cut points by
  others are decided without repricing: `HarmlessSamples.ShieldedSamplesAudited`.
- Production leaves out pieces without energy while the oracle always names two; `OracleProofs.OracleAgrees`
  includes that both pieces of a valid manifest carry energy.

## Model

| member | source | states |
|---|---|---|
| `Money.RoundIsNearest` | src/modules/billing/money.py:18-29 | The rounded amount is the integer nearest to the exact quotient, characterised by multiplication only, with halves away from zero. |
| `Money.NearestUnique` | src/modules/billing/money.py:18-29 | Only one integer satisfies that characterisation, so it determines the rounding. |
| `Money.RoundMonotone` | src/modules/billing/money.py:18-29 | A larger exact price never rounds to fewer dong. |
| `Money.RoundOdd` | src/modules/billing/money.py:18-29 | Rounding a negated price negates the amount. |
| `Money.RoundScale` | src/modules/billing/money.py:18-29 | The amount does not depend on the unit in which energy is written. |
| `Money.VndHalfDong` | src/modules/billing/money.py:18-29 | Each priced amount is within half a dong of the exact price. |
| `Interpolation.Interpolate` | src/modules/billing/segmentation.py:36-88 | The linear search returns the register value of the specification, or the same error for empty, out-of-range and falling readings. |
| `Interpolation.ExactAtSample` | src/modules/billing/segmentation.py:36-88 | At a sample instant the value is the sample and is not marked interpolated. |
| `Interpolation.BracketAndHalfWh` | src/modules/billing/segmentation.py:36-88 | Between two samples the value stays in their bracket and within half a Wh of the true line. |
| `Interpolation.ValueMonotone` | src/modules/billing/segmentation.py:36-88 | The interpolated register never runs backwards in time. |
| `Segmentation.CollectCuts` | src/modules/billing/segmentation.py:109-154 | The loops over dates and bands collect exactly the session ends and the midnights and band edges strictly inside. |
| `Segmentation.CutsMeaning` | src/modules/billing/segmentation.py:109-154 | Membership in the collected cut set, in both directions, without any loop. |
| `Segmentation.SplitSession` | src/modules/billing/segmentation.py:91-231 | The whole cutting and pricing loop computes the specified segments, errors included. |
| `SegmentationProofs.PieceHomogeneous` | src/modules/billing/segmentation.py:156-199 | Every instant of a piece has the same local date and tariff band, so its midpoint speaks for all of it. |
| `SegmentationProofs.SegmentsAccountForSession` | src/modules/billing/segmentation.py:91-231 | On good readings segmentation never fails; segments are ordered, disjoint, homogeneous and exactly measured, and the instants outside them are exactly without band or without meter movement. |
| `SegmentationProofs.SegmentsRefineInstants` | src/modules/billing/segmentation.py:91-231 | For any weight on date, price, version or label, the segment total equals the sum over every microsecond of meter movement times that instant's weight. |
| `SegmentationProofs.SegmentMarks` | src/modules/billing/segmentation.py:156-229 | A segment's ends are marked interpolated if and only if no sample was taken there. |
| `DailyTotals.EnergyConserved` | src/modules/billing/segmentation.py:91-231 | With full-day tariffs, segment energies sum exactly to last minus first reading. |
| `DailyTotals.BillNearExactCost` | src/modules/billing/segmentation.py:91-231 | The billed energy amount differs from the exact per-microsecond price by at most half a dong per segment. |
| `DailyTotals.GroupByDay` | src/modules/billing/segmentation.py:234-263 | The per-day dictionary holds, for exactly the days with segments, those segments in order with their energy and money totals. |
| `DailyTotals.GroupingConserves` | src/modules/billing/segmentation.py:234-263 | Summed over the days, grouped energy and money equal the session totals. |
| `DailyTotals.DayEnergyIsDayMovement` | src/modules/billing/segmentation.py:234-263 | A day's billed energy is the register advance between that day's midnights, clipped to the session. |
| `Bands.ValidateBands` | src/modules/pricing/bands.py:35-120 | Accepts exactly the valid inputs whose bands price every minute once, and returns bands that tile 00:00 to 24:00 in order. |
| `Bands.SweepIsComplete` | src/modules/pricing/bands.py:94-120 | Counting owners at the band edges decides coverage of every one of the 1440 minutes, both ways. |
| `Bands.CheckedBandsTile` | src/modules/pricing/bands.py:35-120 | One owner per minute implies that the sorted, midnight-split bands tile the day without gap or overlap. |
| `TariffPrices.AcceptedIffHeldOnce` | src/modules/pricing/bands.py:35-120 | Bands are accepted if and only if each is valid and every minute of the day lies in exactly one of them, read on a clock that wraps over midnight. |
| `TariffPrices.BandsKeepPrices` | src/modules/pricing/bands.py:66-120 | The accepted band that owns a minute has the price and the label of the one input band that holds it. |
| `IdleFee.FeeCountsStartedMinutes` | src/modules/billing/idle_fee.py:6-39 | The fee counts the least number of minutes that after grace reaches the end of the interval. |
| `IdleFee.LinesRefinePerMinute` | src/modules/billing/invoicing.py:154-205 | The day-chunked lines charge exactly the per-minute sum at each minute's local-day rate, and account for each started minute once. |
| `IdleFee.LinesTileTheSpan` | src/modules/billing/invoicing.py:154-205 | The lines run end to end from grace end to unplug, one per local day in order, each with its own day's rate and version. |
| `IdleFee.BuildIdleLines` | src/modules/billing/invoicing.py:154-205 | For any tariff days the loop terminates with the specified lines, the interval rejection, or the failed lookup. |
| `IdleFee.LookupsSucceed` | src/modules/billing/invoicing.py:154-205 | When every local day up to the end is loaded, every lookup of the loop succeeds. |
| `IdleFee.OccupationFee` | src/modules/billing/invoicing.py:154-205 | For any occupation interval: nothing within grace, otherwise the tiled per-minute fee from grace end to unplug. |
| `Invoicing.ReadMeterValues` | src/modules/billing/invoicing.py:66-95 | The sample loop produces the specified readings or the same rejection. |
| `Invoicing.MergeSucceeds` | src/modules/billing/invoicing.py:66-95 | Merging fails exactly for a negative sample or one that contradicts a session end. |
| `Invoicing.ReadingsGood` | src/modules/billing/invoicing.py:66-95 | Accepted readings run from start meter to stop meter, strictly in time and never falling. |
| `Invoicing.EffectiveIsLatest` | src/modules/billing/invoicing.py:98-151 | The selected tariff version is one with the latest effective date not after the day, and none is selected exactly when none applies. |
| `Invoicing.LoadDailyTariffs` | src/modules/billing/invoicing.py:98-151 | The day loop with its frame cache yields the specified versions and frames, or the first day's rejection. |
| `Invoicing.PricingCovers` | src/modules/billing/invoicing.py:98-151 | A priced span has full-day frames and a version on every local day it touches. |
| `TariffPrices.AttributionAsks` | src/modules/billing/invoicing.py:98-151 | What segmentation attributes to an instant is the price, label and version that the tariff in force on its local day asks at its local minute. |
| `TariffPrices.RuleAsks` | src/modules/billing/invoicing.py:98-151 | The occupation rate and grace of a priced day are those of the tariff in force. |
| `InvoiceCreation.CreateInvoice` | src/modules/billing/invoicing.py:208-315 | The whole ladder of rejections and the assembled invoice, in the order of the code. |
| `InvoiceProofs.EnergyRejectionsUnreachable` | src/modules/billing/invoicing.py:259-267 | For every evidence, neither a segmentation error nor `invoice_energy_mismatch` can occur. |
| `InvoiceProofs.PricedRejections` | src/modules/billing/invoicing.py:254-315 | After readings, history and tariffs are accepted, only overflow or an idle span outside the session can reject. |
| `InvoiceProofs.InvoiceMeaning` | src/modules/billing/invoicing.py:208-315 | A created invoice accounts for the session instant by instant, each line at the price that the tariff in force asks at every minute it covers; its total is the rounded energy price, within half a dong per line of the exact one, plus the per-minute occupation fee under the tariffs' own rates and graces, nonnegative and within the ledger bound. |
| `InvoiceProofs.InvoicedEnergyIsMeterAdvance` | src/modules/billing/invoicing.py:208-315 | Invoiced energy is exactly stop meter minus start meter. |
| `InvoiceConditions.InvoicedIff` | src/modules/billing/invoicing.py:208-315 | An invoice is made if and only if station, driver, authorization and times admit it, the samples run in order between the meters, at most one interval is billed and ends with the release, every local day has a tariff that prices each minute once, the occupation lies inside the session, and the amounts fit. |
| `MeterStore.StoreRecoverySamples` | src/modules/charging/service.py:264-332 | The nested loops over sorted late blocks compute the fold of single late samples. |
| `MeterStore.StoreLiveSamples` | src/modules/charging/service.py:157-253 | The live loop with its `latest` dictionary computes the fold of single live samples against the stored series. |
| `MeterProofs.NeighbourTest` | src/modules/charging/service.py:302-316 | Comparing with the two neighbours decides exactly whether the series with the sample inserted is still nondecreasing behind the start meter. |
| `MeterProofs.RegressionIffDisorder` | src/modules/charging/service.py:264-332 | From ordered series, late samples raise `meter_regression` if and only if the final energy series are out of order. |
| `MeterProofs.OrderIndependent` | src/modules/charging/service.py:264-332 | Conflict-free samples give the same series and flags in every arrival order. |
| `MeterProofs.MessagesOrderIndependent` | src/modules/charging/service.py:264-332 | The same however the samples are split into messages and blocks. |
| `SampleStorage.SortBlocksSorts` | src/modules/charging/service.py:264-332 | Late blocks are ordered by time, those of one time in their order of arrival. |
| `SampleStorage.LateContents` | src/modules/charging/service.py:264-332 | Whatever conflicts a late report has, each series shows what was stored before, and else the first sample for that time, if it lies inside the session. |
| `SampleStorage.LateConflicts` | src/modules/charging/service.py:264-332 | The conflict reason is left if and only if it was there or an accepted sample disagrees with the series. |
| `SampleStorage.LiveStepDoes` | src/modules/charging/service.py:157-253 | A live sample is stored if and only if it is newer than its series and not before the session; exactly when it contradicts the latest value or is an energy value below it is it flagged. |
| `SampleStorage.LiveContents` | src/modules/charging/service.py:157-253 | After a live report each series shows what was stored before and the samples newer than everything before them. |
| `SampleStorage.LateReportStores` | src/modules/charging/service.py:534-579 | A report by transaction id to a recovering session, ended or not, is stored as late samples. |
| `SampleStorage.LiveReportStores` | src/modules/charging/service.py:534-579 | Any other report to an open session is stored as live samples. |
| `SampleStorage.ReportIgnored` | src/modules/charging/service.py:484-579 | A session closed by hand takes no report, an ended one only those of a recovering charger by transaction id. |
| `Occupation.SessionRow.constructor` | src/modules/charging/service.py:445-463 | The new session row and its review reasons. |
| `Occupation.SessionRow.HandleStatus` | src/modules/charging/occupation.py:65-127 | A status message opens, resumes, confirms, releases or flags; a row the database refuses is rolled back. |
| `Occupation.SessionRow.ReleaseConnector` | src/modules/charging/occupation.py:35-62 | The first valid release closes the open interval at the release time. |
| `Occupation.SessionRow.HandleNoteStop` | src/modules/charging/occupation.py:130-140 | The stop confirms the pending interval and an unplug at the stop releases. |
| `Occupation.SessionRow.HandleOfflineGap` | src/modules/charging/occupation.py:143-161 | An offline gap flags sessions that are occupied or stopped but not released. |
| `Occupation.SessionRow.HandleMeterValues` | src/modules/charging/service.py:484-579 | Reports go to the live or the recovery path; after the end only a recovering charger's reports by transaction id are stored. |
| `Occupation.SessionRow.HandleStop` | src/modules/charging/service.py:582-669 | The stop stores its samples, reviews its meter, and notes occupation; a repeated stop changes nothing. |
| `ReviewReasons.StartFlags` | src/modules/charging/service.py:445-463 | A new session carries exactly the reasons for a refused authorization, a negative start meter and a replaced session. |
| `ReviewReasons.StatusFlags` | src/modules/charging/occupation.py:65-127 | A status message adds exactly the reasons it is flagged for: no time stamp, after the release, charging after the stop, an interrupted occupation, an unplug before the last interval. |
| `ReviewReasons.StopReviewMeaning` | src/modules/charging/service.py:612-662 | The review at the stop drops three reasons and adds one exactly for a stop meter below the newest sample, a stop before the start, or meters that fall or are negative. |
| `ReviewReasons.StopFlags` | src/modules/charging/service.py:582-669 | The same for the whole stop with its own samples and an invalid unplug time. |
| `ReviewReasons.CloseFlags` | src/modules/charging/recovery.py:160-174 | A replaced session and one closed by hand: end, stop meter and exactly these reasons. |
| `ReviewReasons.SeenClears` | src/modules/charging/recovery.py:71-79 | A charger seen charging again clears the one reason that its session looked abandoned. |
| `SessionRuns.ReachableInv` | src/modules/charging/service.py:335-669 | Every run of messages keeps the meter, occupation and end-of-session invariants. |
| `EvidenceProofs.OccupationOverRuns` | src/modules/charging/occupation.py:35-140 | In every run: at most one open and one confirmed interval; once released, a confirmed interval ends at the release, with reason "released". |
| `OccupationHistory.OpenIntervalHistory` | src/modules/charging/occupation.py:65-140 | In every run until release and invoice there is an open interval if and only if a suspending message opened one that no charging message closed; it starts at that message's stamp and is confirmed if and only if Finishing, the stop, or a suspension at or after the end came since. |
| `OccupationHistory.ReleaseDecided` | src/modules/charging/occupation.py:35-62 | A message releases the connector if and only if it reports the unplug no earlier than the session and its last interval, at the time it reports. |
| `OccupationBill.BilledHistory` | src/modules/charging/occupation.py:35-140 | Whatever came later, a released session is billed for the interval open at the unplug, from the stamp of the message that opened it to the unplug, if and only if a message made it final; otherwise for none. |
| `OccupationBill.OfflineGapFlags` | src/modules/charging/occupation.py:143-161 | An offline gap while the session is occupied or stopped but not released flags it for good; at any other time it leaves no trace. |
| `EvidenceProofs.ReadingsDecided` | src/modules/billing/invoicing.py:66-95 | Ordered evidence decides the readings completely: conflict at an end, else a sample above the stop meter, else success. |
| `EvidenceProofs.CleanStopIsReadable` | src/modules/charging/service.py:604-664 | If no review reason is left right after the stop, the outlet samples run in order and nonnegative from start to stop meter, and readings cannot fail with `invoice_meter_decreased` or `invoice_invalid_meter`. |
| `EvidenceProofs.CleanStopIsReadableOverRuns` | src/modules/charging/service.py:604-664 | The same for every run of messages that ends with the stop. |
| `EvidenceProofs.EndedReadingsDecided` | src/modules/charging/service.py:534-579 | At any later moment an unflagged session's readings are refused if and only if a sample contradicts a session end or exceeds the stop meter. |
| `EvidenceProofs.LateSampleDefeatsReadings` | src/modules/charging/service.py:264-332 | A concrete run: an unflagged stop, then one late sample that raises no flag but makes the readings fall. |
| `EvidenceProofs.RemainingRejections` | src/modules/billing/invoicing.py:208-315 | The complete list of invoice rejections an unflagged, released session can meet; occupation-history, idle-interval and authorization rejections are not among them. |
| `Settlement.Database.IssueInvoice` | src/modules/billing/invoicing.py:318-361 | Reuse, creation, review or pending, with the whole new row. |
| `Settlement.Database.SettleIssued` | src/modules/billing/closure.py:45-94 | Ledger lookup, debit, mismatch flag and settlement mark, with all three tables. |
| `Settlement.Database.Close` | src/modules/billing/closure.py:23-94 | The closing transaction on all tables. |
| `SettlementOutcome.BlockedStays` | src/modules/billing/invoicing.py:334-350 | A session under review, still charging or still plugged in is left exactly as it was. |
| `SettlementOutcome.RefusedIsReviewed` | src/modules/billing/invoicing.py:351-361 | Refused evidence leaves its one reason on the session, and no money moves. |
| `SettlementOutcome.RowRefusals` | src/modules/billing/invoicing.py:219-233 | The reason that a wrong station, a missing driver, a missing authorization or an empty interval leaves, in this order. |
| `SettlementOutcome.OnlyIssued` | src/modules/billing/closure.py:42-50 | Without `settle`, or once settled, closing stores the invoice and changes nothing else. |
| `SettlementOutcome.ClosingDebits` | src/modules/billing/closure.py:52-94 | A nonzero invoice without a ledger entry is debited by exactly one entry in the invoiced driver's wallet, and the session is settled as debited. |
| `SettlementOutcome.ClosingZero` | src/modules/billing/closure.py:52-94 | A zero invoice without a ledger entry settles the session and moves no money. |
| `SettlementOutcome.ClosingWithEntries` | src/modules/billing/closure.py:56-79 | With entries in the ledger no money moves: the session is settled if they are the one debit of its invoice, and gets the mismatch reason otherwise. |
| `SettlementOutcome.ClosingDecides` | src/modules/billing/closure.py:23-94 | Closing to settle leaves every ended and unplugged session settled or under review. |
| `SettlementOutcome.DecidedForever` | src/modules/billing/closure.py:23-94 | From any reachable tables, and whatever follows, it then stays settled as it is or is never debited. |
| `SettlementProofs.SettledRightOverRuns` | src/modules/billing/closure.py:23-94 | In every interleaving, "debited" means exactly one ledger entry of minus the positive total in the invoiced driver's wallet, and "zero_invoice" means none. |
| `SettlementProofs.SettledForever` | src/modules/billing/closure.py:42-43 | Settlement, issued invoice and ledger entries of a settled session never change again; only an exempted session can be settled without an invoice. |
| `SettlementProofs.OneDebitOverRuns` | src/modules/billing/closure.py:53-82 | No interleaving of workers, scans and rollbacks debits a session twice. |
| `SettlementProofs.ReviewedNeverDebited` | src/modules/billing/invoicing.py:334-335 | A session that ended with a review reason is never settled or debited. |
| `Audit.RecomputeTotal` | src/modules/accounting/service.py:395-499 | The recomputed total, that pricing or segmentation was refused, or that a day was looked up that was never loaded. |
| `Audit.AuditSession` | src/modules/accounting/service.py:247-803 | The issues of one session, in order, and whether data was missing; nothing if its recomputation ends the run. |
| `Audit.ExecuteRun` | src/modules/accounting/service.py:247-812 | A run yields no report exactly when some session ends it; otherwise the findings of every session and the counters and the five totals over them. |
| `AuditMeaning.IssuesMeaning` | src/modules/accounting/service.py:247-803 | Each category is recorded for a session exactly as often as it holds: missing stop meter, falling meters or samples, refused samples or lines off the meter, a due invoice missing, a due debit missing, a wrong debit, a tariff missing or a wrong total. |
| `AuditMeaning.CountersMeaning` | src/modules/accounting/service.py:227-812 | In every run the category counters count how often each holds of the sessions, and matched, mismatched, missing and exempt count the sessions they name. |
| `AuditMeaning.TotalsMeaning` | src/modules/accounting/service.py:221-816 | The five totals are the sums over the sessions of the meter advance, the line energy, and the money invoiced, right and debited. |
| `AuditProofs.ReportBalances` | src/modules/accounting/service.py:227-812 | In every run matched plus mismatched is the number of sessions, each category counter is the number of its issues, the categories sum to the number of issues, and severities add up. |
| `AuditProofs.QuietRunBalances` | src/modules/accounting/service.py:221-816 | In every run without an issue and without an exempted session, the money billed, recomputed and debited is one amount. |
| `AuditProofs.SettledRunBalances` | src/modules/accounting/service.py:221-816 | A run over settled sessions on unchanged evidence matches them all, shows one amount as billed, recomputed and debited, and as much energy on the lines as on the meters. |
| `AuditProofs.RunsNeverCrash` | src/modules/accounting/service.py:401-499 | Whatever messages a session received, its recomputation never looks up a day that was not loaded, the one error the run does not catch. |
| `AuditProofs.RecomputationAgrees` | src/modules/accounting/service.py:395-499 | On the evidence an invoice came from, the meter check is clean and the recomputed total is the invoiced total. |
| `AuditProofs.SilentIffMoneyRight` | src/modules/accounting/service.py:535-803 | With evidence and lines unchanged, the audit is silent if and only if the stored total is the recomputed one and the ledger shows exactly it, in the right wallet; any nonzero change of either is an issue. |
| `AuditProofs.SettledAuditsClean` | src/modules/accounting/service.py:247-812 | Every session settled in any run, on unchanged evidence, is audited with no issue at all. |
| `LateSamples.MessagesKeepFrozen` | src/modules/charging/service.py:534-579 | Once a session is invoiced and released, no message of any kind changes its row or intervals; only samples inside the session are added. |
| `LateSamples.LateSamplesAudited` | src/modules/accounting/service.py:247-812 | After settlement and any further messages the audit is silent if and only if the samples are still accepted and come to the energy amount that was invoiced. |
| `HarmlessSamples.SampleInserted` | src/modules/billing/invoicing.py:66-95 | A new sample between two neighbouring readings is accepted if and only if it lies between their registers, and then it is one more reading between them. |
| `HarmlessSamples.AcceptedIffOrderly` | src/modules/billing/invoicing.py:66-95 | Whatever was stored, the samples of a session are accepted if and only if those inside it run in order from start meter to stop meter and agree with both at the ends. |
| `HarmlessSamples.ShieldedSampleKeeps` | src/modules/billing/segmentation.py:91-231 | A new sample with a stored sample or a session end between itself and every cut point keeps the energy amount, if the samples stay in order. |
| `HarmlessSamples.ShieldedSamplesAudited` | src/modules/accounting/service.py:247-812 | When all samples that arrive after settlement are shielded so from the cut points, the audit is silent if and only if the samples still run in order from start meter to stop meter. |
| `LateSampleRun.SettledIsReached` | src/modules/charging/service.py:582-669 | The session of the next row is the one that a start, a reconnect, a stop and an invoice leave. |
| `LateSampleRun.LateSampleBreaksAudit` | src/modules/charging/service.py:264-332 | A concrete session: invoiced, then one late sample in order and without a flag at a band edge; however its money was settled, its audit finds an issue. |
| `LateSamples.CutsDecideAmount` | src/modules/billing/segmentation.py:156-229 | The energy amount depends on the readings only through the register at the cut points. |
| `LateSamples.InsertedKeepsAmount` | src/modules/billing/segmentation.py:91-231 | A late reading whose neighbours have no cut point between them never changes the energy amount, whatever it shows. |
| `Configuration.IntentTable.Submit` | src/modules/ocpp/configuration.py:82-148 | A new intent, an idempotent repeat, or the refusal of the code. |
| `Configuration.IntentTable.RequestReset` | src/modules/ocpp/configuration.py:182-244 | A confirmed reset takes away the processing token and is accepted once. |
| `Configuration.IntentTable.Claim` | src/modules/ocpp/configuration.py:368-435 | The leasing transaction: archived, offline, first write, queued reset or read-back. |
| `Configuration.IntentTable.RecordDispatch` | src/modules/ocpp/configuration.py:448-469 | The last check before ChangeConfiguration goes out. |
| `Configuration.IntentTable.Finish` | src/modules/ocpp/configuration.py:247-299 | A verdict is stored only under the current token; a confirmed one is dated, and a confirmed heartbeat becomes the charger's. |
| `ConfigurationRequests.SubmitDecided` | src/modules/ocpp/configuration.py:82-148 | An intent is queued if and only if its value is allowed, its id unused, and its charger there, connected and without an unfinished intent; a repeat changes nothing. |
| `ConfigurationRequests.ResetDecided` | src/modules/ocpp/configuration.py:182-244 | A reset is queued if and only if its intent awaits a reboot, none was requested yet, its id is unused, and the charger is there, connected and idle. |
| `ConfigurationRuns.InvOverRuns` | src/modules/ocpp/configuration.py:182-515 | The protocol invariant over every interleaving of operators, workers, crashes and lease expiries. |
| `ConfigurationOutcome.ClaimStarts` | src/modules/ocpp/configuration.py:368-435 | A claim of a due intent on a connected charger stores the token and starts the write, the reset or the read-back, as the intent stands. |
| `ConfigurationOutcome.ClaimStartsNothing` | src/modules/ocpp/configuration.py:376-417 | Any other claim starts nothing: not due, archived, disconnected. |
| `ConfigurationOutcome.UnreadableFails` | src/modules/ocpp/configuration.py:436-447 | An old value that cannot be read or a key that cannot be written fails the intent without a write. |
| `ConfigurationOutcome.ChangeIsSent` | src/modules/ocpp/configuration.py:448-472 | The write goes out if and only if, when the old value is recorded, the worker still holds the token of an intent being sent; whatever others do. |
| `ConfigurationOutcome.ChangeAnswered` | src/modules/ocpp/configuration.py:470-484 | Under any interleaving, a worker that kept its token leaves the intent Failed, RebootRequired or Accepted as the charger replied, and reads back exactly after Accepted. |
| `ConfigurationOutcome.ReadAnswered` | src/modules/ocpp/configuration.py:302-345 | The same for each kind of read-back, with and without a pending reboot and a requested reset; Verified exactly for the requested value of a writable key. |
| `ConfigurationOutcome.BusyPutsOff` | src/modules/ocpp/configuration.py:485-499 | A busy charger puts the reset off. |
| `ConfigurationOutcome.ResetIsSent` | src/modules/ocpp/configuration.py:485-500 | An idle one is sent the requested reset, once. |
| `ConfigurationOutcome.ResetAnswered` | src/modules/ocpp/configuration.py:500-507 | The state that each reply to Reset leads to. |
| `ConfigurationOutcome.WriteIsVerified` | src/modules/ocpp/configuration.py:470-484 | A write accepted or of unknown outcome, then a read-back of the requested value: the intent is verified and a heartbeat interval is the charger's, whatever others do in between. |
| `ConfigurationOutcome.QueuedCanBeVerified` | src/modules/ocpp/configuration.py:368-484 | From every reachable table every due queued intent can be brought to Verified, with one write. |
| `ConfigurationRequests.OneActiveOverRuns` | src/modules/ocpp/configuration.py:117-124 | As long as no claim finds its charger archived, no charger ever has two unfinished intents, so the database's unique index refuses nothing. |
| `ConfigurationRequests.HeartbeatsOverRuns` | src/modules/ocpp/configuration.py:275-281 | In every run a charger's heartbeat interval is one that was requested for it, within its limits, and confirmed by a read-back. |
| `ConfigurationProofs.WritesAtMostOnce` | src/modules/ocpp/configuration.py:368-515 | Each intent sends ChangeConfiguration at most once and Reset at most once, and no OCPP message id is ever used for two writes. |
| `ConfigurationProofs.ResetOnlyAfterRequest` | src/modules/ocpp/configuration.py:182-244 | Every Reset on the wire was preceded by an accepted request for it, on an idle charger awaiting a reboot. |
| `ConfigurationProofs.RecoveryOnlyReads` | src/modules/ocpp/configuration.py:507-515 | A worker that picks up an intent in any state but queued or reset-queued never writes, whatever happens next. |
| `ConfigurationProofs.SupersededChangesNothing` | src/modules/ocpp/configuration.py:247-266 | Once another claim or a reset request replaced its token, a worker never changes the table. |
| `ConfigurationProofs.NeverQueuedAgain` | src/modules/ocpp/configuration.py:368-435 | No intent returns to queued, its request never changes, and its reset id is set once. |
| `ConfigurationProofs.VerifiedMatchesRequest` | src/modules/ocpp/configuration.py:302-345 | A verified intent's read-back is the requested number and no other. |
| `ConfigurationProofs.DecimalWrites` | src/modules/ocpp/configuration.py:470-472 | The value on the wire is the requested number in decimal digits. |
| `ConfigurationProofs.FinishedIsAbsorbing` | src/modules/ocpp/configuration.py:376-378 | A finished intent not ended by the archived branch never changes again. |
| `ConfigurationProofs.FinalIff` | src/modules/ocpp/configuration.py:379-401 | A finished intent is final if and only if the archived branch did not end it or no worker that can still report holds its token. |
| `ConfigurationProofs.ArchivedIntentReopens` | src/modules/ocpp/configuration.py:379-401 | A concrete run in which an archived, finished intent becomes active again. |
| `ConfigurationGate.GateStaysClosed` | src/modules/ocpp/configuration_gate.py:40-53 | In every run, from a reset request on, starts are refused until the intent is verified or needs review; no crash, late reply or failed read-back opens the gate in between. |
| `ConfigurationGate.GateClosedIff` | src/modules/ocpp/configuration_gate.py:40-53 | In every run an intent keeps the gate closed if and only if a reset was requested for it and it is neither verified nor in review. |
| `DriverStart.StartTable.ExpireRequests` | src/modules/charging/driver.py:29-51 | Exactly the due requests expire, pending ones with their recorded timeout, and the count is theirs. |
| `DriverStart.StartTable.Create` | src/modules/charging/driver.py:96-262 | Creation after expiry, refused when driver or connector is taken, with everything rolled back. |
| `DriverStart.StartTable.Complete` | src/modules/charging/driver.py:265-286 | Only a pending reply is replaced, by the first recorded result. |
| `DriverStart.StartTable.FindLatest` | src/modules/charging/driver.py:306-319 | The query returns a latest matching unlinked request, or none exactly when none matches. |
| `DriverStart.StartTable.Reject` | src/modules/charging/driver.py:289-360 | A refusal rejects that request only. |
| `DriverStart.StartTable.Attach` | src/modules/charging/driver.py:363-390 | A real start links that request only. |
| `DriverStartOutcome.ExpiryMeans` | src/modules/charging/driver.py:29-51 | Of the requests whose lease has run out, an unanswered one timed out and an accepted one was not confirmed; no other changes. |
| `DriverStartOutcome.CreateDecided` | src/modules/charging/driver.py:96-262 | A request is made if and only if its id is new, it is admitted, and no running request reserves its driver or connector at that time. |
| `DriverStartOutcome.CompleteDecided` | src/modules/charging/driver.py:265-286 | The first answer counts; a request not started or refused takes it as its status, and only an accepted one goes on reserving, for a minute. |
| `DriverStartOutcome.RefuseDecided` | src/modules/charging/driver.py:289-360 | A refusal leaves the chosen request rejected and every other alone. |
| `DriverStartOutcome.StartDecided` | src/modules/charging/driver.py:363-390 | A start leaves the chosen request started and linked and every other alone. |
| `DriverStartOutcome.ReachableIff` | src/modules/charging/driver.py:306-319 | A start or a refusal can reach exactly the requests of its driver and connector that were neither started nor refused and that the charger may have received. |
| `DriverStartOutcome.StartedIff` | src/modules/charging/driver.py:363-390 | In every run a request is started if and only if a start was linked to it, and its session is that start's. |
| `DriverStartOutcome.RejectedIff` | src/modules/charging/driver.py:265-360 | In every run a request is rejected if and only if it was refused, or the charger rejected it and it was not started. |
| `DriverStartProofs.SettledOverRuns` | src/modules/charging/driver.py:29-390 | In every interleaving a reply is given once, started and rejected requests stay so with the same session, and a lost lease is never regained. |
| `DriverStartProofs.ReachableConsistent` | src/modules/charging/driver.py:164-195 | At most one live request per driver and per connector, Started exactly with a session, no session linked twice, and each reply is the recorded result. |
| `DriverStartProofs.StartFindsLiveRequest` | src/modules/charging/driver.py:363-390 | While a driver's creation times advance, a real start or refusal lands on the live request and never on an older one. |
| `DriverStartProofs.StartFindsLiveIff` | src/modules/charging/driver.py:363-390 | In every reachable state the live request is sure to be found if and only if no given-up request of the same driver and connector carries the same or a later creation time. |
| `DriverStartProofs.BackwardClockMisses` | src/modules/charging/driver.py:95-100 | A concrete run: the second request carries the earlier time, and a start may be linked to the first one, which had timed out. |
| `ClosureQueue.ScanUnsettled` | src/modules/billing/closure.py:125-179 | Over a table that changes between pages the scan ends, visits ids in increasing order, only candidates, and every session unsettled throughout exactly once. |
| `ClosureQueue.TallyMeaning` | src/modules/billing/closure.py:152-178 | The counters of a scan: every candidate once, in the category it came to. |
| `ClosureQueue.PageCovers` | src/modules/billing/closure.py:137-151 | A page leaves out no candidate between the old and the new cursor. |
| `ClosureQueue.ClosureRunner.Schedule` | src/modules/billing/closure.py:199-207 | A pending id is accepted without a second entry; a full queue refuses. |
| `ClosureQueue.ClosureRunner.Take` | src/modules/billing/closure.py:209-211 | A worker receives the oldest id, which stays pending. |
| `ClosureQueue.ClosureRunner.Release` | src/modules/billing/closure.py:219-221 | The id stops being pending after success and failure alike. |
| `ClosureQueue.ScheduleDecided` | src/modules/billing/closure.py:199-207 | A session is accepted if and only if it is pending or the queue has room; then it is pending, and newly queued at the end. |
| `ClosureQueue.RunnerOverRuns` | src/modules/billing/closure.py:191-221 | In every run the queue respects its capacity and has no duplicates, pending is queued plus in flight, no two workers hold one session, and ids leave in arrival order, none lost. |
| `Alerts.AlertBoard.ScanPoint` | src/modules/alerts/service.py:81-145 | One charger in one scan: rule state, recovery stamp and opening. |
| `Alerts.AlertBoard.Scan` | src/modules/alerts/service.py:37-147 | The scan loop updates each listed charger once, leaves the others alone and counts the openings. |
| `Alerts.AlertBoard.Mutate` | src/modules/alerts/service.py:254-294 | Acknowledge and close with their refusals. |
| `AlertOutcome.OpensIff` | src/modules/alerts/service.py:88-145 | A scan opens an alert if and only if the charger is silent or bursting, has no active alert, and recovery was seen after every earlier scan that triggered, this one included. |
| `AlertOutcome.OpeningAdds` | src/modules/alerts/service.py:120-145 | An opening adds one open alert of the scan's time, for silence if the charger is silent, and nothing else adds one. |
| `AlertOutcome.RecoveredIff` | src/modules/alerts/service.py:88-109 | A scan finds the charger recovered if and only if for at least two heartbeats every scan saw it live, two of them with different contacts, and no error came after the first instant of the window. |
| `AlertOutcome.ScanStamps` | src/modules/alerts/service.py:113-119 | A scan stamps every active alert if the charger is recovered and takes the stamp back if not. |
| `AlertOutcome.ActionDecided` | src/modules/alerts/service.py:254-294 | When an alert can be acknowledged and closed, with and without force, and what it becomes. |
| `AlertsProofs.OneActiveOverRuns` | src/modules/alerts/service.py:121-145 | In every run a charger has at most one active alert, its newest. |
| `AlertsProofs.ClosedForever` | src/modules/alerts/service.py:254-294 | A closed alert is never changed by a later scan or action. |
| `AlertsProofs.RecoveryBetweenOpenings` | src/modules/alerts/service.py:120-145 | Between two openings some scan saw full recovery; if it is the second opening's own scan, the rule was not armed before it. |
| `AlertsProofs.RecoveredTriggersIffOnEdge` | src/modules/alerts/service.py:64-120 | A recovered scan triggers if and only if enough errors fall in the window and the latest lies on its very first instant. |
| `AlertsProofs.RecoveryBeforeOpening` | src/modules/alerts/service.py:120-145 | Unless the second opening is a live scan on that edge, recovery was seen strictly before it. |
| `AlertEdge.UnrecoveredReopeningIff` | src/modules/alerts/service.py:64-145 | Among the histories of one charger (one creation time, a positive heartbeat, errors only added, time and contacts moving forward), a scan can end one that reopens without recovery since the last opening if and only if it finds the charger live, on that edge, at least two heartbeats old and contacted after its creation. |
| `AlertEdge.EdgeReopens` | src/modules/alerts/service.py:64-145 | Such a history: created at 0, heartbeat 50, two errors at 50 and a window of 100; the scan at 50 opens, a forced close follows at 60, and the scan at 150 opens again. |
| `AlertsProofs.RecoveredMeans` | src/modules/alerts/service.py:88-109 | A recovered verdict means that for at least two heartbeats every scan saw the charger live, with two different contacts, and no error came after the first instant of the window. |
| `AlertsProofs.CloseNeedsRecovery` | src/modules/alerts/service.py:267-294 | An alert closed without force was recovered in the latest scan, and the charger was live and quiet when it was closed. |
| `Archive.EncryptBackup` | scripts/backup_database.py:36-63 | The streaming writer produces the specified frames, or fails for sizes beyond 64 bits. |
| `Archive.DecryptBackup` | scripts/backup_database.py:66-112 | The streaming reader decides as specified, failure by failure. |
| `ArchiveProofs.RoundTrip` | scripts/backup_database.py:36-112 | Decrypting an encrypted archive returns every byte string whose length fits in 64 bits. |
| `ArchiveProofs.TruncationRejected` | scripts/backup_database.py:82-112 | Every strict prefix of an accepted archive is rejected. |
| `ArchiveProofs.AcceptedIffArchive` | scripts/backup_database.py:77-112 | Accepted bytes are exactly chunks 0 to n - 1 of one file id in order, then the matching end record and nothing after. |
| `ArchiveProofs.AcceptedBytes` | scripts/backup_database.py:36-112 | Byte by byte: record k carries number k and chunk k, and the last record the number of chunks, the size and, at its end, the digest of the plaintext. |
| `ArchiveProofs.FirstIsHeaviest` | scripts/backup_database.py:36-112 | Of a stored integer the first byte is the heaviest. |
| `Oracle.ExpectedSegments` | simulator/t108_contract.py:205-242 | The oracle's checks and its two priced pieces. |
| `OracleProofs.OracleDecided` | simulator/t108_contract.py:205-242 | The oracle refuses exactly samples with wrong ends or out of order, and prices every other list in two pieces that meet at the boundary. |
| `OracleProofs.OracleAgrees` | simulator/t108_contract.py:184-242 | For every valid manifest, production segmentation of its readings under its three-band tariff yields exactly the oracle's two segments, with the same bounds, energies, rates and amounts. |

## Left out

- Daylight-saving zones: the station offset is fixed, so a local day always has 24 hours.
- Conversion and validation of raw sampled values: a sample arrives converted, or as refused.
- Legacy lifecycle 0 status handling: an idle start is taken from the row as it is; its invoice is modelled.
- Lookup of the session a message belongs to, masked tags, authorization and reservations: their outcomes are parameters.
- The forms behind manual closure: its effect on the session is a step, its validation is not modelled.
- Invoicing.ReadMeterValues: does not model the rejection of a stored energy sample whose unit is not Wh, because samples are converted to Wh before they are stored.
- Invoicing.LoadDailyTariffs: does not model the usage mark on tariff versions and the default label of unlabelled bands, which no amount depends on.
- Audit paging, date bounds, input hash, issue texts, uncollected invoices of earlier periods, revenue and kWh totals per station, and CSV export.
- Audit.ExecuteRun: takes the one loop of the code as the checks of all sessions followed by the counters and totals, which read nothing else.
- Occupation.SessionRow.HandleStop: does not model the displayed `energy_kwh`, the cleared abnormal mark and the event row, which neither invoice nor settlement reads.
- DriverStartProofs.StartFindsLiveRequest: requires creation times that advance, because the property fails otherwise; DriverStartProofs.StartFindsLiveIff has the condition without that requirement.
- Wallet balances and caches: only the ledger entries of a session matter here.
- Configuration: audit rows, the polling cycle, the heartbeat advertised at boot, and the unique index on unfinished intents, which can only refuse a report on an intent that the archived branch ended.
- Driver starts: virtual tags, wallet eligibility, power and connector checks are one admission parameter; response bodies are not modelled.
- ClosureQueue.ScanUnsettled: counts every candidate in one category but leaves what happened to each candidate to a parameter.
- Alerts: email delivery, listing and retry.
- Archive: file handling, retention and the strength of the cipher and digest; sealing is assumed to be opened by its key and to respect the frame bound.
- Oracle.ExpectedSegments: takes decimal arithmetic as exact, which it is at the sample instants the theorem uses; derived participant identities are not modelled.
- Frontend, routers, schemas, migrations, settings, the WebSocket transport and login.
