# Pancakebot verification models

Dafny models of the parts of the prediction bot whose correctness is hardest to see from
reading one function, with proofs about every input, every run or every reachable state.
Check everything with `dafny verify dfyconfig.toml`.

## What is modelled

**The bankroll tracker** (`BankrollHistory`, `BankrollSpec`, `BankrollRuns`, `BankrollReload`,
`BankrollTheorems`, `BankrollLaws`, `BankrollRecovery`, `BankrollRatchet`, `BankrollScale`,
`BankrollExamples`, `BankrollTracker`). A deque of bankroll samples is deduplicated on write, pruned
to a rolling window plus one boundary sample, collapsed by a peak release, and mirrored to an
append-only history file. `BankrollTracker` holds the two trackers as classes, each method verified
against a transition function of `BankrollSpec`. The theorems of `BankrollLaws`, `BankrollRecovery`
and `BankrollRatchet` are about every run of settlements, releases and restarts with nondecreasing
round starts. They compare the deque with the complete history, repeated values included, before and
after restarts that lose samples, and the ratchet with what each process has seen. `BankrollScale`
has the proportions, `BankrollExamples` concrete runs.

**The cooldown** (`Cooldown`) and **the breaker in three wirings** (`Breaker`,
`ResearchTrackers`). The counter is consumed once per round anchor and mirrored to a pause file.
Two research trackers move the drawdown test into `is_paused` and claim the same skips.

**Pari-mutuel settlement** (`Settlement`, `PayoutLaws`). Four separately written routines settle
a bet; they are compared with each other, summed over all the bettors of a round, and studied as
a curve in the stake.

**Algorithms against their definitions.** The win-rate pause filter (`PauseFilter`), the
two-pointer best window (`BestWindow`), trailing sums, binary search and streaks
(`IndexedQueries`), the shared candle load (`KlineWindows`), the round-trip estimate
(`RttTable`), the backtest ledger (`FoldLedger`), the rolling wallet accuracy and its
chronological pass (`SmartWallets`, `SmartWalletMeaning`), and the wallet history store with its
features (`WalletFeatures`, `WalletFeatureLaws`, `WalletFeaturePass`, `WalletFeatureBounds`,
`WalletFeatureMeaning`; `Sums` has the order-independence of sums they rest on). The two `Meaning`
modules say what is measured in terms of the bets alone.

**The crash-resumable backfill** (`BackfillFile`, `Backfill`, `BackfillWeeks`, `BackfillWorker`,
`BackfillProgress`). One worker per symbol appends records and then replaces a checkpoint. A run
is any interleaving of the workers' steps, with a crash at any point, any number of times.

## Where the code differs from what it says

These are consequences of the code as it stands. Each has an exact condition over all inputs or
runs and a concrete instance, both proved.

- A settlement whose own append makes the second oldest sample leave the window is not written
  to the history file, because the file gets a line only when the deque grew. The seed sample is
  likewise unwritten when the first settlement differs from it
  (`BankrollLaws.SettlementReachesFile`). A reload rebuilds the deque exactly when every live
  sample was written (`BankrollLaws.ReloadRebuildsDeque`); `BankrollExamples.LostSettlement` is a
  run that ends at 20 and restarts at 9.
- A restart that loses samples can change the rolling peak. It keeps the answer exactly when some line
  of the file in the window, or the latest one before it, is at the peak and the latest one before the
  window is not above it (`BankrollRecovery.ReloadKeepsPeakExactlyWhen`). In every run the answer is
  that of the complete history, to the dedup tolerance, exactly when the deque has such samples
  (`BankrollRecovery.PeakOverCompleteHistory`; `BankrollExamples.PeakMissesLost` is a run where it has
  not). It is so again for every window that starts after the first settlement recorded since the last
  such restart (`BankrollRecovery.PeakRecovers`; instance `BankrollExamples.PeakReturns`).
- The ratchet peak is not rebuilt from ordinary history lines: a reload keeps it exactly when no
  settlement since the last restart or release is above the base in the file
  (`BankrollRatchet.RatchetSurvivesReload`). The peak can then be below the current bankroll;
  `BankrollRatchet.PeakAtLeastCurrent` says exactly in which runs it is not, and
  `BankrollExamples.PeakBelowCurrent` is one where it is. Nor need it be an upper bound of the rolling
  peak: it is one for every window exactly when no sample in the deque is above both the base in the
  file and every settlement of the process (`BankrollRatchet.RollingAtMostRatchet`; instance
  `BankrollExamples.RollingAboveRatchet`).
- The anchor of the last cooldown tick is not in the pause file. A round is charged a second time
  exactly when a restart falls between two of its ticks (`Cooldown.SplitExactlyWhen`,
  `Cooldown.ChargedOnceExactlyWhen`; instance `Cooldown.RestartChargesTwice`).
- The research trackers agree with production exactly in the runs without certain rounds, all of them
  with an idle cooldown: a breach hidden behind the bankroll minimum, which production tests first,
  with a positive cooldown length; a breach of the research pipeline's own test alone, above the
  minimum, when that pauses for another length; and for `Step15Tracker` with a length of zero a breach
  above the minimum, unless the pipeline's own test fires too and pauses for zero rounds
  (`Breaker.AdaptiveAgrees`, `Breaker.SweptAgrees`; instances `Breaker.DarkBreach`,
  `Breaker.OwnTestAlone`, `Breaker.ZeroCooldown`).
- `WalletHistoryStore.settle_round` is documented as idempotent; it is so exactly for a round that
  settles nothing (`WalletFeatureLaws.SettlingTwiceIsOnceExactlyWhen`; every other round is an
  instance).
- After a crash between append and checkpoint a round is fetched again. Readers keep the first
  record, while the checkpoint's counters tally the last one. They are the same records exactly
  when each checkpointed round was last reported as first, and give the same numbers exactly when
  the changes balance (`Backfill.CountersTallyKeptExactlyWhen`; instance
  `BackfillProgress.CountersCanDisagree`).
- A candle load whose extent exceeds the 300 stored candles is clamped silently, and a spec reads
  its own window exactly while that does not happen (`KlineWindows.SharedLoadIsRight`; instance
  `KlineWindows.SecondTooFar`).
- Whether the wallet study has a row for a round depends on every bet in it, however late: it has
  one exactly when both sides got a bet (`SmartWallets.RowNeedsBothPools`; instance
  `SmartWallets.LateBetDecidesRow`). The features inside the row do not
  (`SmartWalletMeaning.NoLookAhead`).

Two smaller ones. The `elif` of the persisted `record_settlement`
(pancakebot/bankroll_tracker.py:408-410) is never reached: the body of
`BankrollTracker.PersistedBankrollTracker.RecordSettlement` proves its branch impossible.
`AdaptiveBankrollTracker.record_settlement` takes two arguments
(research/adaptive_dd_step13c_2026_05_26.py:206) and the pipeline passes three
(pancakebot/strategy/momentum_pipeline.py:245-246), so with the present pipeline that tracker
raises at its first settlement; what is modelled of it is its `is_paused`.

## Model

| member | source | states |
|---|---|---|
| BankrollHistory.PruneEachIsPruneOnce | pancakebot/bankroll_tracker.py:197-223 | Pruning after every append leaves the same deque as one prune at the end, over any sequence of samples |
| BankrollHistory.RollingPeakIsPeak | pancakebot/bankroll_tracker.py:230-251 | The computed rolling peak is the greatest of the in-window samples and the latest one before the window |
| BankrollHistory.PruneKeepsPeak | pancakebot/bankroll_tracker.py:197-251 | For queries at or after the latest sample, pruning does not change the peak |
| BankrollHistory.DedupKeepsPeak | pancakebot/bankroll_tracker.py:177-195 | Skipping near-equal samples moves the peak by less than the tolerance, and not at all for exact repeats |
| BankrollHistory.PeakNeverRises | pancakebot/bankroll_tracker.py:230-251 | With no new samples the peak never rises as the query time advances |
| BankrollHistory.PeakWhenAllBefore | pancakebot/bankroll_tracker.py:230-251 | Once every sample is before the window the peak is the last sample |
| BankrollSpec.LostExactlyWhen | pancakebot/bankroll_tracker.py:401-410 | Which line, if any, a settlement appends to the history file: none for a repeat or exactly when the second oldest sample leaves the window, only the seed when the first settlement repeats it |
| BankrollReload.ReplayOfWritten | pancakebot/bankroll_tracker.py:329-360 | If the live samples were written, pruning the written ones gives the live deque |
| BankrollReload.ReplayNeedsWritten | pancakebot/bankroll_tracker.py:329-360 | Only if they were written |
| BankrollTheorems.SettleKeeps | pancakebot/bankroll_tracker.py:177-223 | A settlement keeps the invariant tying deque, file and complete history together |
| BankrollTheorems.ReleaseKeeps | pancakebot/bankroll_tracker.py:289-298 | A release keeps it |
| BankrollTheorems.RestartKeeps | pancakebot/bankroll_tracker.py:329-360 | A restart keeps it, whether or not samples were lost |
| BankrollTheorems.RunKeeps | pancakebot/bankroll_tracker.py:177-421 | It holds after every run of settlements, releases and restarts with nondecreasing starts |
| BankrollLaws.FullIsComplete | pancakebot/bankroll_tracker.py:177-195 | The reference history is one starting sample and every settlement since the last release |
| BankrollRecovery.PeakOverCompleteHistory | pancakebot/bankroll_tracker.py:177-360 | In every run, restarts that lose samples included, and at every query time: the rolling peak is within 1e-12 of the peak over the complete history if and only if some live sample that counts is, and the latest live one before the window is not above it by more |
| BankrollLaws.PeakWithoutLosses | pancakebot/bankroll_tracker.py:177-251 | So in a run whose restarts lost nothing it always is, for queries at or after the latest sample, and exactly so if only exact repeats were skipped |
| BankrollRecovery.PeakRecovers | pancakebot/bankroll_tracker.py:177-360 | After any restarts it is so for every window starting after the first settlement recorded since the last lossy one, exactly if only exact repeats were skipped since |
| BankrollRecovery.ReloadKeepsPeakExactlyWhen | pancakebot/bankroll_tracker.py:230-360 | After every run, a restart keeps the rolling peak if and only if some line of the file that counts is at the live peak and the latest line before the window is not above it |
| BankrollLaws.InitialPeak | pancakebot/bankroll_tracker.py:225-238 | Before any settlement or release, restarts or not, peak and current are the initial bankroll in both modes, at any query time |
| BankrollLaws.OnlyRestarts | pancakebot/bankroll_tracker.py:311-360 | Exactly the runs of restarts alone record nothing, and they leave the tracker as it was created |
| BankrollLaws.PeakMeans | pancakebot/bankroll_tracker.py:230-251 | In every run the rolling peak is the greatest of the live samples of the last windowDays times 86400 seconds and the latest one before them |
| BankrollLaws.SettlementMeans | pancakebot/bankroll_tracker.py:177-223 | A settlement within 0.000000000001 of current leaves the deque alone; any other becomes its end, behind all samples at most windowDays days old and one before them; the ratchet has seen it either way |
| BankrollLaws.FirstSettlementMeans | pancakebot/bankroll_tracker.py:177-195 | The first settlement puts a sample of the initial bankroll at its own start in front of itself, and nothing else when it is within 0.000000000001 of it |
| BankrollLaws.RollingPeakAtLeastCurrent | pancakebot/bankroll_tracker.py:225-251 | In rolling mode the peak is never below the current bankroll, in any run and at any query time |
| BankrollRatchet.RatchetIs | pancakebot/bankroll_tracker.py:177-360 | In every run the ratchet is the greatest of the base in the file and the settlements since the last restart or release |
| BankrollRatchet.PeakAtLeastCurrent | pancakebot/bankroll_tracker.py:225-251 | Peak is at least current in every run in rolling mode, and in ratchet mode if and only if this process recorded a settlement, or started no higher than the base in the file, or skipped as a repeat a value no lower than it started with |
| BankrollRatchet.PeakAfterRestart | pancakebot/bankroll_tracker.py:343-360 | Right after a restart in ratchet mode that is so if and only if the file is empty or its last line is no higher than the base in it |
| BankrollRatchet.RollingAtMostRatchet | pancakebot/bankroll_tracker.py:177-360 | After every run, no rolling peak exceeds the ratchet peak if and only if no live sample is above both the base in the file and every settlement since the last restart or release |
| BankrollRatchet.RollingAtMostRatchetAfterRestart | pancakebot/bankroll_tracker.py:329-360 | Right after a restart that is so if and only if no loaded line is above the base in the file |
| BankrollLaws.RollingAtMostRatchetInOneLife | pancakebot/bankroll_tracker.py:177-251 | With no restart since the installation or the last release the rolling peak never exceeds the ratchet |
| BankrollLaws.PeakDecays | pancakebot/bankroll_tracker.py:230-251 | With no new samples the peak never rises and ends at the current bankroll |
| BankrollLaws.NoDrawdownAfterRelease | pancakebot/bankroll_tracker.py:289-298 | Right after a release peak equals current in both modes, and current is unchanged; the deque is one release sample of it at the given start |
| BankrollScale.PeakScales | pancakebot/bankroll_tracker.py:225-251 | With every bankroll multiplied by one positive number, so are peak and current, in either mode |
| BankrollScale.DrawdownScales | research/adaptive_dd_step13c_2026_05_26.py:193-195 | Whether current is down by a fraction of the peak does not change when every bankroll is multiplied by one positive number |
| BankrollLaws.ReloadRebuildsDeque | pancakebot/bankroll_tracker.py:329-360 | After every run, a reload gives the live deque if and only if every live sample is in the file |
| BankrollLaws.SettlementReachesFile | pancakebot/bankroll_tracker.py:401-410 | In every run, which line a settlement adds to the file |
| BankrollRatchet.RatchetSurvivesReload | pancakebot/bankroll_tracker.py:343-360 | After every run, earlier restarts included, a reload keeps the ratchet if and only if no settlement since the last restart or release is above the base in the file |
| BankrollExamples.LostSettlement | pancakebot/bankroll_tracker.py:401-410 | The run settling 10, 9 and 20 on days 0, 1 and 9 ends at 20 and restarts at 9, in either mode |
| BankrollExamples.PeakMissesLost | pancakebot/bankroll_tracker.py:230-251 | After that restart the rolling peak is 9, which is not the peak over the complete history |
| BankrollExamples.PeakReturns | pancakebot/bankroll_tracker.py:230-360 | A settlement of 11 on day 10 after that restart: on day 18 the peak is 11, that of the complete history |
| BankrollExamples.PeakBelowCurrent | pancakebot/bankroll_tracker.py:343-360 | In ratchet mode, settling 12 above an initial 10 and restarting leaves the peak at 10 and current at 12 |
| BankrollExamples.RollingAboveRatchet | pancakebot/bankroll_tracker.py:343-360 | After that restart the rolling peak of the deque is 12 for every window and the ratchet 10 |
| BankrollTracker.InMemoryBankrollTracker.constructor | pancakebot/bankroll_tracker.py:146-175 | The starting memory and an idle cooldown |
| BankrollTracker.InMemoryBankrollTracker.RecordSettlement | pancakebot/bankroll_tracker.py:177-195 | Its effect is the settlement transition of the specification |
| BankrollTracker.InMemoryBankrollTracker.PruneEntries | pancakebot/bankroll_tracker.py:197-223 | The scan leaves exactly the window and its boundary sample |
| BankrollTracker.InMemoryBankrollTracker.CurrentBankroll | pancakebot/bankroll_tracker.py:225-228 | The last sample, or the initial bankroll before any |
| BankrollTracker.InMemoryBankrollTracker.PeakBankroll | pancakebot/bankroll_tracker.py:230-251 | The peak of the specification in either mode |
| BankrollTracker.InMemoryBankrollTracker.SetPaused | pancakebot/bankroll_tracker.py:256-260 | Sets the counter and the trigger; refuses a negative count |
| BankrollTracker.InMemoryBankrollTracker.TickCooldown | pancakebot/bankroll_tracker.py:262-284 | One tick of the cooldown specification, ignoring a repeated anchor |
| BankrollTracker.InMemoryBankrollTracker.ResetPeakBaseline | pancakebot/bankroll_tracker.py:289-298 | The release transition of the specification |
| BankrollTracker.PersistedBankrollTracker.constructor | pancakebot/bankroll_tracker.py:311-372 | The state loaded is the replay of the two files |
| BankrollTracker.PersistedBankrollTracker.RecordSettlement | pancakebot/bankroll_tracker.py:401-410 | Memory as in the base class; the file gains exactly the lines of the write rule |
| BankrollTracker.PersistedBankrollTracker.SetPaused | pancakebot/bankroll_tracker.py:412-414 | Timer and pause file move together as in the cooldown specification |
| BankrollTracker.PersistedBankrollTracker.TickCooldown | pancakebot/bankroll_tracker.py:427-435 | The same for a tick |
| BankrollTracker.PersistedBankrollTracker.ResetPeakBaseline | pancakebot/bankroll_tracker.py:416-421 | Memory is released and the barrier line appended |
| Cooldown.ReloadMatchesLive | pancakebot/bankroll_tracker.py:362-435 | After every run of pauses, ticks and restarts the pause file reloads to the live cooldown |
| Cooldown.FreshReloads | pancakebot/bankroll_tracker.py:362-435 | From a new installation, every run reloads to the live cooldown |
| Cooldown.LastTickIs | pancakebot/bankroll_tracker.py:277-280 | After every run of events the anchor remembered is the round last ticked since the last restart, also when that tick ended the cooldown or found none |
| Cooldown.CooldownLaw | pancakebot/bankroll_tracker.py:256-284 | After any events and then set_paused(N), remaining is max(0, N - (d + s)) for d distinct rounds, other than the one last ticked since the last restart, and s rounds split by a restart, with s at most the restarts, and positive if and only if a restart falls between two ticks of one round |
| Cooldown.ChargedOnceExactlyWhen | pancakebot/bankroll_tracker.py:256-284 | After any events, remaining is max(0, N - d) if and only if no restart falls between two ticks of one round, or d already uses up N |
| Cooldown.ExtensionIsNotCharged | pancakebot/bankroll_tracker.py:277-284 | A pause of 288 set on the round whose tick ended the one before is still 288 after that round is ticked again |
| Cooldown.TriggerLastsWithPause | pancakebot/bankroll_tracker.py:256-284 | The trigger is the start given to the last set_paused while rounds remain, restarts included, and none afterwards |
| Cooldown.FileIs | pancakebot/bankroll_tracker.py:380-435 | There is a pause file if and only if something was paused, and it always says how many rounds are left and whether any are |
| Cooldown.ChargedIs | pancakebot/bankroll_tracker.py:262-284 | The charge of any run is distinct rounds, bare ticks and split rounds, exactly |
| Cooldown.SplitExactlyWhen | pancakebot/bankroll_tracker.py:362-372 | A round is charged again if and only if a restart falls between two of its ticks |
| Cooldown.ChargedBounds | pancakebot/bankroll_tracker.py:262-284 | Distinct rounds and bare ticks are all charged, and at most one round more per restart |
| Cooldown.RestartChargesTwice | pancakebot/bankroll_tracker.py:362-372 | From a pause of 3, ticking one round twice leaves 2; with a restart in between it leaves 1 |
| Breaker.AdaptiveAgrees | research/adaptive_dd_step13c_2026_05_26.py:185-204 | On every run, with any tests and cooldown lengths, the skip trace and cooldowns equal production's if and only if no round with an idle cooldown has a tracker breach under the bankroll minimum with a positive length, or a breach of the pipeline's own test alone, above the minimum, with another length |
| Breaker.SweptAgrees | research/cooldown_sweep_step15_2026_05_26.py:102-117 | The same for the swept tracker; with a length of zero no idle round may have a tracker breach above the minimum, unless the pipeline's own test fires too and pauses for zero rounds |
| Breaker.DarkBreach | research/adaptive_dd_step13c_2026_05_26.py:185-204 | On one round with a breach under the bankroll minimum production ends with no cooldown and both research trackers with a full one |
| Breaker.ZeroCooldown | research/cooldown_sweep_step15_2026_05_26.py:102-117 | On one round with a breach and a cooldown of zero production skips and the swept tracker bets |
| Breaker.OwnTestAlone | research/adaptive_dd_step13c_2026_05_26.py:185-204 | On one round where only the pipeline's own test fires, production is left with its cooldown length and the research trackers with the pipeline's |
| ResearchTrackers.BreachedExactlyWhen | research/adaptive_dd_step13c_2026_05_26.py:193-195 | The drawdown test fires if and only if the peak is positive and current is at most one minus the fraction, of the peak |
| ResearchTrackers.AdaptiveBankrollTracker.IsPaused | research/adaptive_dd_step13c_2026_05_26.py:185-204 | Paused while rounds remain, and else if and only if the peak is positive and current is at most one minus the curve's fraction, of it; a fresh pause sets one round more than the length and is counted |
| ResearchTrackers.Step15Tracker.IsPaused | research/cooldown_sweep_step15_2026_05_26.py:102-117 | The same with a fixed fraction, except that a length of zero never pauses; fired pauses and skipped rounds are counted |
| Settlement.ComputePoolAmountsWei | pancakebot/pool_amounts.py:18-46 | The pools are the sums of each side, or the error of the first bad bet |
| Settlement.FirstErrorIs | pancakebot/pool_amounts.py:30-41 | The fold succeeds if and only if every bet has a positive amount and a side, and else reports the first that has not, its amount before its side |
| Settlement.PoolsAre | pancakebot/pool_amounts.py:26-46 | The pools are what was staked on Bull, on Bear and in all |
| Settlement.ComputePoolAmountsWeiBefore | pancakebot/pool_amounts.py:49-56 | The same over the bets placed before the cutoff |
| Settlement.BeforeMultiplicity | pancakebot/pool_amounts.py:49-56 | Those are each bet placed before the cutoff as often as it was placed, and no other |
| Settlement.ChainPays | pancakebot/settlement.py:15-73 | A rise pays Bull and a fall Bear the payout with the own stake in the pool less 0.00025, no change pays nobody, an uncalled oracle returns the stake less 0.00025; a negative stake, a fee outside [0, 1) and another side are refused in that order |
| Settlement.StorePays | pancakebot/settlement.py:82-149 | Which stored rounds are refused and with which error, refunded, lost or won, and what each pays |
| Settlement.ChainAndStoreAgree | pancakebot/settlement.py:15-149 | The on-chain form and the closed-round form settle every bet alike when the stored round describes the chain's, a failed one by having failed alone |
| Settlement.ResearchFormsAgree | research/extension_v2_permutation.py:84-119 | For any arguments: both research forms give credit minus stake minus bet gas whenever the stored form settles, that is for every accepted bet on a failed round, whatever its bet list, or a round with a known winner and valid bets |
| Settlement.NewCohortIsWinnerForm | research/new_cohort_permutation_2026_06_11.py:114-128 | The second research form equals the first |
| Settlement.WinPaysPayout | pancakebot/settlement.py:138-149 | A winning bet is credited the payout with its own stake in the pool, less claim gas |
| Settlement.OwnBetGross | pancakebot/settlement.py:89-149 | Settled against the round without itself, a bet gets its stake times the round's rate, its stake back, or nothing |
| PayoutLaws.PaidToWinners | pancakebot/settlement.py:89-149 | The first n bettors of a won round together get the rate times the winning stakes among them |
| PayoutLaws.PaidBack | pancakebot/settlement.py:110-115 | On a refund they get their stakes, on a tie nothing |
| PayoutLaws.Conservation | pancakebot/settlement.py:89-149 | Over a whole round the payouts are exactly (1 - fee) of the pool when someone won, the stakes on a refund, zero on a tie, and never more than was staked |
| PayoutLaws.PayoutIsShare | pancakebot/settlement.py:138-149 | The payout is (1 - fee) times the stake plus its share of the opposing pool |
| PayoutLaws.PayoutIncreases | pancakebot/settlement.py:138-149 | The payout strictly increases in the stake |
| PayoutLaws.PayoutDiminishes | pancakebot/settlement.py:138-149 | The same increment adds no more to a larger stake, and strictly less if and only if it is positive, the opposing pool is positive and the smaller stake does not already have its side to itself |
| PayoutLaws.MultipleFalls | pancakebot/settlement.py:138-149 | The multiple strictly falls in the stake against a positive opposing pool, and is flat otherwise |
| PayoutLaws.PayoutBounded | pancakebot/settlement.py:138-149 | The gross payout never exceeds (1 - fee) of stake plus opposing pool |
| PayoutLaws.SplittingIsNeutral | pancakebot/settlement.py:138-149 | Same-side parts of a stake, settled against each other, earn together what the whole earns |
| PauseFilter.SkippedExactlyWhen | research/bankroll_scale_rerun_step7_2026_05_26.py:218-226 | The rule: bet k is skipped if and only if N bets precede it and the share of wins among the last N of them is below X |
| PauseFilter.WindowDecides | research/bankroll_scale_rerun_step7_2026_05_26.py:177-243 | The bounded window's rate test is the closed form over the last N outcomes |
| PauseFilter.ApplyWrFilter | research/bankroll_scale_rerun_step7_2026_05_26.py:177-243 | Overall and per cohort, taken and skipped profit are the sums of profit over the positions let through and held back by that rule, and bets and wins are counted over the same positions; win rate, events, mean and longest pause are those of the rule too; N = 0 divides by zero if there is a bet |
| PauseFilter.BaselineUnfiltered | research/bankroll_scale_rerun_step7_2026_05_26.py:246-267 | Profit is the plain sum of profits and wins are counted, over all bets and over the positions of each cohort; nothing is skipped |
| PauseFilter.TakenPlusSkipped | research/bankroll_scale_rerun_step7_2026_05_26.py:177-267 | Taken plus skipped is the baseline, overall and per cohort |
| PauseFilter.RunsAddUp | research/bankroll_scale_rerun_step7_2026_05_26.py:193-243 | The pause lengths add up to the skipped bets |
| PauseFilter.RunsAreMaximal | research/bankroll_scale_rerun_step7_2026_05_26.py:193-243 | The skip flags are stretches of taken bets around the reported runs, nonempty between any two, so each run is a maximal stretch of skipped bets |
| PauseFilter.RunsAgainstEvents | research/bankroll_scale_rerun_step7_2026_05_26.py:193-243 | There are as many runs as pause events, or exactly one less when the last bet sets one off |
| BestWindow.FindBestWindow | research/hot_windows_step11_bonus_2026_05_26.py:47-83 | The most profitable window over all starts, at the first start attaining it, moving each index over each bet at most once |
| BestWindow.TotalsAre | research/hot_windows_step11_bonus_2026_05_26.py:60-83 | A window's profit is the sum and its wins the number of the wins over the bets in it |
| BestWindow.EndIsLatest | research/hot_windows_step11_bonus_2026_05_26.py:58-62 | The end of a window is the first bet too late for it |
| BestWindow.EndMovesForward | research/hot_windows_step11_bonus_2026_05_26.py:58-62 | The end never moves back as the start advances |
| IndexedQueries.BisectLeft | research/p4c_phase0_feature_builder.py:285-289 | The number of sorted times below the bound |
| IndexedQueries.PrefixDifference | research/p4c_phase0_feature_builder.py:277-289 | Two prefix sums around an interval differ by the profit made in it |
| IndexedQueries.SortKeepsProfit | research/p4c_phase0_feature_builder.py:278-283 | Sorting the history changes no interval's profit |
| IndexedQueries.TrailingPnL.Trailing | research/p4c_phase0_feature_builder.py:277-289 | The trailing sum is the profit with lock in [t-w, t) over the unsorted history |
| IndexedQueries.LatestAt | research/p4c_phase0_feature_builder.py:190-200 | The greatest index with time at most ts, or none |
| IndexedQueries.Streaks | research/p4c_phase0_feature_builder.py:580-600 | For each epoch the run length just before its last round |
| IndexedQueries.StoredIsLast | research/p4c_phase0_feature_builder.py:580-600 | The last round of an epoch decides what is stored under it |
| IndexedQueries.StreakIsMaximal | research/p4c_phase0_feature_builder.py:580-600 | That run is of equal known positions and cannot be extended |
| KlineWindows.ComputeLoadExtent | research/in_process_runner.py:113-141 | The tightest extent that covers every spec; an empty list is an error |
| KlineWindows.LoadKlinesUnified | research/in_process_runner.py:144-203 | Each epoch's first usable line, canonical file first, sliced to the extent; a latest offset below 2 is an error |
| KlineWindows.FirstUsableIs | research/in_process_runner.py:179-203 | The line used for an epoch is the first with candles and no error, and there is none if and only if no line has |
| KlineWindows.SharedLoadIsRight | research/in_process_runner.py:113-221 | A full record loaded for many specs gives each its own one-a-second window if and only if the extent is at most 301 |
| KlineWindows.SharedLoadAgrees | research/in_process_runner.py:113-221 | Load-once equals load-alone, for a spec that fits a record, if and only if the shared extent fits too |
| KlineWindows.SecondTooFar | research/in_process_runner.py:144-221 | A spec loaded beside one that reaches a second too far gets 10 candles from 12 seconds before lock instead of 11 from 13 |
| RttTable.ExactAtSizes | pancakebot/timing_constants.py:486-499 | A measured size reads back its measurement if and only if it is positive or was measured at zero |
| RttTable.IsRoundedLine | pancakebot/timing_constants.py:465-509 | Between neighbours the estimate is the half-even rounding of the line through them, ends included |
| RttTable.LineIsStraight | pancakebot/timing_constants.py:495-509 | Equal steps in the batch size add equal amounts to the line |
| RttTable.Bracketed | pancakebot/timing_constants.py:465-509 | It lies between the neighbours' measurements and within one half of the line |
| RttTable.MonotoneExactlyWhen | pancakebot/timing_constants.py:465-509 | With rising measurements it is monotone in the batch size if and only if the estimate for a batch of one is not negative |
| RttTable.MonotoneWithPositiveSizes | pancakebot/timing_constants.py:465-509 | With positive sizes it is so if and only if the smallest measurement is not negative |
| RttTable.EstimateForOne | pancakebot/timing_constants.py:486-493 | With positive sizes the estimate for one is the smallest measurement |
| RttTable.MeasuredIsMonotone | pancakebot/timing_constants.py:302-308 | The table in the source meets the condition, and size 20 reads 240 |
| RttTable.MeasuredSizes | pancakebot/timing_constants.py:302-308 | The five measurements read back |
| RttTable.MeasuredElsewhere | pancakebot/timing_constants.py:302-509 | The table reads 225 at 12, 79 at 1, 0 at 0 and 240 at 50 |
| FoldLedger.RunFold | research/in_process_runner.py:286-427 | For any decisions and stakes in flight: the trade rows, final bankroll, net as gross profit minus gross loss, skips as rounds minus bets, rates and every counter are those of the settled turns; an error stops the fold after the rows before it |
| FoldLedger.BetTurn | research/in_process_runner.py:372-404 | A bet costs its gas of 0.0002; a failed round returns the stake, a lost one nothing, a won one its payout, either less 0.00025; it counts for its side, and as won only in the last case |
| FoldLedger.SkippedTurn | research/in_process_runner.py:372-408 | No bet, or one of nothing, costs nothing and counts for neither side |
| FoldLedger.TradeAt | research/in_process_runner.py:410-418 | The k-th row has the k-th round, decision and profit, and the bankroll after it |
| FoldLedger.TrackerSample | research/in_process_runner.py:420-421 | A round that moves the bankroll by 0.000000000001 or more is the tracker's latest sample, at its start, with the bankroll after it and the stake in flight |
| FoldLedger.TrackerFollowsLedger | research/in_process_runner.py:420-421 | After every round the tracker's current bankroll is within 1e-12 of the ledger's |
| FoldLedger.NetIsGainsLessLosses | research/in_process_runner.py:400-404 | Gross profit minus gross loss is the net result |
| FoldLedger.BetsAndSkipsFillUp | research/in_process_runner.py:385-408 | Bets and skips add up to the rounds, and each side's bets and wins to the totals |
| FoldLedger.SkipCountsAddUp | research/in_process_runner.py:406-408 | The counts by reason add up to the rounds without a bet |
| FoldLedger.SkipsAreThose | research/in_process_runner.py:406-408 | Each reason is listed once for every round without a bet that gave it |
| FoldLedger.ReasonIs | research/in_process_runner.py:406-408 | A missing or empty reason counts as unknown, any other as itself |
| BackfillFile.KeptIsPrefix | research/in_process_runner.py:193-196 | A file written in order, with repeats of the round just reached, read first-record-wins, is a prefix of the rounds |
| BackfillFile.ClosingIsPrefix | research/backfill_okx_extended.py:468-474 | So is it read last-record-wins |
| BackfillFile.NoRepeats | research/backfill_okx_extended.py:468-474 | Without repeats both readings are the file |
| BackfillFile.SameReadingsExactlyWhen | research/in_process_runner.py:193-196 | The two readings agree on the first c rounds if and only if each of those was last reported as it was first reported |
| Backfill.SymbolStepKeeps | research/backfill_okx_extended.py:477-531 | Every step of a worker keeps file, checkpoint, memory and position in agreement |
| Backfill.CrashKeeps | research/backfill_okx_extended.py:454-465 | So does a crash, at the price of at most one repeat |
| Backfill.NothingPendingKeeps | research/backfill_okx_extended.py:596-605 | A week is passed by only when every checkpoint covers it |
| Backfill.WeekPassedExactlyWhen | research/backfill_okx_extended.py:596-605 | In every reachable state a week is passed by without its workers if and only if every symbol's checkpoint has come to its end |
| Backfill.StepKeeps | research/backfill_okx_extended.py:477-631 | Every step of the process keeps the invariant for all symbols |
| Backfill.RunKeeps | research/backfill_okx_extended.py:477-631 | So it holds after every interleaving and any crashes |
| Backfill.FilesAreDurable | research/backfill_okx_extended.py:461-531 | Each file, read first-record-wins, is a prefix of the rounds with locks 300 seconds after their starts, at most one past its checkpoint, with at most one repeat per crash; the checkpoint names the round its counters add up to |
| Backfill.CountersTallyLastRecords | research/backfill_okx_extended.py:507-516 | The saved counters tally the last record of each checkpointed round |
| Backfill.CountersTallyKeptExactlyWhen | research/backfill_okx_extended.py:507-518 | In every reachable world the tallied records are the kept ones if and only if each checkpointed round was last reported as first, and the numbers agree if and only if, status by status, as many rounds changed away from it as towards it |
| Backfill.WithoutCrashesCountersTallyKept | research/backfill_okx_extended.py:507-516 | Without a crash they tally what readers keep |
| Backfill.FinishedIsComplete | research/backfill_okx_extended.py:592-631 | When the last week is over every symbol has every round, all checkpointed |
| BackfillWeeks.BucketByWeek | research/backfill_okx_extended.py:578-583 | The buckets are exactly the weeks that occur, each with its rounds in order |
| BackfillWeeks.SameWeekExactlyWhen | research/backfill_okx_extended.py:578-583 | Two rounds share a bucket if and only if both start in one stretch of a week counted from the first round |
| BackfillWeeks.BucketsAreTheRounds | research/backfill_okx_extended.py:578-593 | Visited in ascending order the buckets laid end to end are the rounds: none is dropped or moved |
| BackfillWeeks.EveryRoundFetched | research/backfill_okx_extended.py:534-641 | A finished backfill of the bucketed rounds holds every round for every symbol, after any crashes |
| BackfillWorker.SymbolStore.FetchOneSymbolForWeek | research/backfill_okx_extended.py:477-531 | The worker's loop leaves file, checkpoint and memory as the steps of the model do, one record per attempt |
| BackfillWorker.FetchedIsRun | research/backfill_okx_extended.py:477-531 | In a started week the uninterrupted loop of one symbol is a run of the whole process, of steps of that worker only, with the other symbols, the week and the crashes unchanged |
| BackfillWorker.WeekIsFetched | research/backfill_okx_extended.py:477-531 | After it the checkpoint and the file cover the bucket |
| BackfillProgress.CanFinish | research/backfill_okx_extended.py:566-568 | From every reachable state some crash-free continuation completes the backfill |
| BackfillProgress.Resumable | research/backfill_okx_extended.py:566-568 | And then every symbol's file is complete |
| BackfillProgress.CountersCanDisagree | research/backfill_okx_extended.py:507-518 | One crash can leave the counters tallying a record no reader keeps |
| SmartWallets.AccuracyIsProper | research/phase0_wallet_smart_money_2026_06_11.py:100-102 | The shrunk accuracy is strictly between 0 and 1, and at least one half exactly when half the outcomes won |
| SmartWallets.WalletState.Acc | research/phase0_wallet_smart_money_2026_06_11.py:100-102 | Accuracy and count over the last hundred outcomes of the whole history |
| SmartWallets.WalletState.Update | research/phase0_wallet_smart_money_2026_06_11.py:104-111 | Deque and win counter stay the last hundred outcomes of the history and the wins among them |
| SmartWallets.WalletBook.Lookup | research/phase0_wallet_smart_money_2026_06_11.py:145-148 | An unknown wallet counts as one half with no record |
| SmartWallets.WalletBook.Update | research/phase0_wallet_smart_money_2026_06_11.py:181-183 | One wallet's history grows and no other's changes |
| SmartWallets.MeasureBets | research/phase0_wallet_smart_money_2026_06_11.py:142-166 | Net flow and wallet set per variant and horizon, persistence samples and timing counts, from the histories before the round |
| SmartWallets.SettleBets | research/phase0_wallet_smart_money_2026_06_11.py:181-183 | Afterwards each wallet's history includes the round |
| SmartWallets.ChronologicalPass | research/phase0_wallet_smart_money_2026_06_11.py:129-183 | One row per payable round, and the samples and timings of every bet, each computed from the rounds before it; the first bad bet stops the pass |
| SmartWallets.LogCountsBets | research/phase0_wallet_smart_money_2026_06_11.py:145-166 | The timing counts add up to all the bets, smart ones never outnumber them, and every sample is of at least 30 outcomes with an accuracy strictly between 0 and 1 |
| SmartWalletMeaning.NoLookAhead | research/phase0_wallet_smart_money_2026_06_11.py:130-183 | Inputs that agree on earlier rounds and on which bets were placed at least the horizon before lock give equal features, at the same place among the rows of the two passes |
| SmartWalletMeaning.OutcomeOfOne | research/phase0_wallet_smart_money_2026_06_11.py:182-183 | A settled bet adds one outcome to its own wallet's record: whether its side won |
| SmartWalletMeaning.HistoryInParts | research/phase0_wallet_smart_money_2026_06_11.py:129-183 | A record is the outcomes of the rounds, one round after the other |
| SmartWalletMeaning.AccuracyIs | research/phase0_wallet_smart_money_2026_06_11.py:100-102 | Accuracy times (n + 20) is wins plus 10, over the last n of at most a hundred outcomes |
| SmartWalletMeaning.GridMeans | research/phase0_wallet_smart_money_2026_06_11.py:151-166 | Each of the nine cells is the stakes on Bull less those on Bear of the bets placed at least 6, 4 or 3 seconds before lock by wallets with 30, 50 or 20 outcomes at 0.55, 0.56 or 0.54, and those wallets |
| SmartWalletMeaning.RowPays | research/phase0_wallet_smart_money_2026_06_11.py:167-173 | Each payout per BNB times its pool is 97 per cent of both pools |
| SmartWalletMeaning.TimingMeans | research/phase0_wallet_smart_money_2026_06_11.py:145-166 | The timing counters count the bets, and the bets of wallets with 30 outcomes at 0.55 or better, placed at least 6, 4 and 3 seconds before lock |
| SmartWalletMeaning.SampleOfOne | research/phase0_wallet_smart_money_2026_06_11.py:163-166 | A bet of a wallet with 30 outcomes gives one sample: its accuracy before the round and whether the bet won |
| SmartWalletMeaning.LogInParts | research/phase0_wallet_smart_money_2026_06_11.py:142-166 | Bets are logged one after the other |
| SmartWallets.RowNeedsBothPools | research/phase0_wallet_smart_money_2026_06_11.py:133-140 | A round has a row if and only if both sides got a bet, at any time |
| SmartWallets.LateBetDecidesRow | research/phase0_wallet_smart_money_2026_06_11.py:133-140 | Two rounds with the same bet visible at every horizon, of which only the one with a later bet has a row |
| WalletFeatures.WalletHistoryStore.SettleRound | research/p3a_wallet_features.py:81-93 | The store is the history of the settled events, in order; a refund settles none |
| WalletFeatureLaws.AfterIsTotals | research/p3a_wallet_features.py:81-93 | A wallet's history is a count, a count of wins and a volume over its events |
| WalletFeatureLaws.HistoryIgnoresOrder | research/p3a_wallet_features.py:50-93 | Histories do not depend on the order in which bets and rounds were settled |
| WalletFeatureLaws.SettlingTwiceIsOnceExactlyWhen | research/p3a_wallet_features.py:81-93 | Settling a round twice equals settling it once if and only if it has no bets or no winner |
| WalletFeatureLaws.SizesIgnoreOrder | research/p3a_wallet_features.py:153-157 | The sorted wallet totals behind the top shares depend only on which bets there are |
| WalletFeatureLaws.FeaturesIgnoreOrder | research/p3a_wallet_features.py:96-228 | None of the 13 features depends on the order of the visible bets or of earlier settlements |
| WalletFeaturePass.ComputeFeatures | research/p3a_wallet_features.py:96-228 | The features of the bets before the horizon and the histories so far, or the error |
| WalletFeaturePass.BuildFeaturesChronological | research/p3a_wallet_features.py:255-277 | Features and outcome codes of every round, each from the rounds before it |
| WalletFeaturePass.OutcomeIsWinner | research/p3a_wallet_features.py:242-277 | The outcome code is 1 or 0 for a round won by Bull or Bear and -1 for any other, and a round is settled if and only if it has one, for that side |
| WalletFeaturePass.NoLookAhead | research/p3a_wallet_features.py:255-277 | Inputs whose earlier rounds settle the same bets in any order, and that agree on the bets placed less than 298 seconds after the start, give equal features, in the lists returned too |
| WalletFeatureMeaning.SeenMultiplicity | research/p3a_wallet_features.py:107-117 | A round shows each bet placed less than 298 seconds after its start as often as it was placed, and no other |
| WalletFeatureMeaning.EventsAreBets | research/p3a_wallet_features.py:81-93 | A round with a winner settles each of its bets once, as a win for those on the winning side |
| WalletFeatureMeaning.LoneBet | research/p3a_wallet_features.py:96-228 | All 13 features of a round with one visible bet, from its side, amount and time and its wallet's record: windows of 30 and 60 seconds, ten settled bets for a record, below two fifths to be a losing one |
| WalletFeatureMeaning.FeaturesMean | research/p3a_wallet_features.py:130-212 | Each feature times its denominator is a sum over the visible bets or their wallets, with the whale flag at a tenth of the pool and the velocity over 58 seconds |
| WalletFeatureMeaning.TopIsLargest | research/p3a_wallet_features.py:153-157 | The top wallet's stake is the largest total of any wallet |
| WalletFeatureMeaning.TopFiveAre | research/p3a_wallet_features.py:153-157 | The top five are the first five, if there are as many, of the wallets' totals in falling order |
| WalletFeatureLaws.WalletsAreDistinct | research/p3a_wallet_features.py:130-145 | The wallets are those of the visible bets, each once |
| WalletFeatureMeaning.WinRateIs | research/p3a_wallet_features.py:57-60 | Zero without settled bets, else wins over settled bets |
| WalletFeatureMeaning.ErrorsExactlyWhen | research/p3a_wallet_features.py:119-158 | No features if and only if no bet is visible; an error if and only if a visible bet is on no side, or all of them are of nothing |
| WalletFeatureBounds.WalletsDividePool | research/p3a_wallet_features.py:130-145 | The wallets' stakes add up to the pool |
| WalletFeatureBounds.TopsAreParts | research/p3a_wallet_features.py:153-157 | The largest wallet is part of the five largest, and those are part of the pool |
| WalletFeatureBounds.FeaturesAreProper | research/p3a_wallet_features.py:147-212 | Every share and ratio lies in [0, 1] with top-1 at most top-5, the majority in [1/2, 1], the smart bias in [-1, 1] |

## Left out

- Floating point: all money and statistics are real numbers, with 1e-12 kept as the dedup tolerance; only the half-even rounding of the round-trip estimate is modelled.
- JSON text, file systems, fsync and torn writes: history files are sequences of entries, the pause file a record, a checkpoint an atomic replace.
- BankrollTheorems.RunKeeps: round starts are assumed nondecreasing, as the round feed gives them.
- BankrollTracker.InMemoryBankrollTracker.constructor: its argument checks appear as a precondition, since a tracker that raises does not exist.
- The composite suspension of the pipeline (shadow ledger, extension, monitor override) and its admission check: only the legacy path of risk checks 1 to 3 is modelled, with arbitrary decisions and breach tests.
- The drawdown curves of the adaptive tracker: any curve is allowed.
- Settlement.ComputePoolAmountsWei: labels are compared as values; the upper-casing of strings is not modelled.
- The permutation null and strategy tables of the wallet study, which aggregate its rows.
- WalletFeatures.WalletHistoryStore.SettleRound: amounts are unsigned, as on chain; a wallet's history is a value in the store's dictionary, so sharing one history object is not modelled.
- Backfill.RunKeeps: the candles fetched and the rate limiter are left out, a fetch may report any status at any time; an exception in a worker is a crash of the process. The loaded rounds are assumed to have distinct positive epochs, as the stored ones do.
- The hole verification and coverage report of the backfill, and the paging of closed rounds: they rewrite or count files, without a protocol of their own.
- KlineWindows.LoadKlinesUnified: a line is taken as parsed; malformed text raises in the source.
- KlineWindows.ComputeLoadExtent: each spec has at least one lookback and none is negative, as its configuration checks; the source raises on an empty list of lookbacks.
- RttTable.IsRoundedLine: the table is taken as not empty.
- AdaptiveBankrollTracker.record_settlement: not modelled; see above.
- IndexedQueries.TrailingPnL.Trailing: the stable library sort is modelled by insertion.
- The momentum gate, the RPC poller, the runtime engine, configuration range checks, codecs and the permutation statistics.
