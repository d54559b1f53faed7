# Xelma prediction market: verified model

This project models the on-chain prediction-market ledger and its settlement engine, and the
computations that must agree with it, in Dafny 4.11. `dafny verify dfyconfig.toml` checks all of it.

Users mint a starting balance, stake it on a round (Up/Down, or a Precision price guess placed
openly or by commit and reveal), and are paid when the round is settled on an oracle price, or get
their stakes back when it is cancelled, voided or short of participants. Winnings wait as pending
winnings until claimed; fees go to a treasury and an insurance fund, and the fund covers part of the
stakes of some cancelled rounds. Every entrypoint either commits completely or changes nothing.

How the files fit together:

- `Types`, `Arith`, `Sums`: shared values; the contract's i128, u128 and u32 arithmetic with its
  overflow errors; sums over lists and maps, and the ascending address order.
- `Fees`, `Shares`, `Engine`: what settling one round pays, as a function of its stakes, and what it
  conserves.
- `Ledger`: the state of the market and every entrypoint as a function from a state to the next one or
  to an error. `Invariants`, `Books`, `Steps`, `Runs`, `Safety`, `Records`, `Claims`, `Caps` prove what
  holds in every reachable state and over every run. `Orphans` and `Commitments` are runs that show where
  the code departs from its own comments and documents.
- `Verdicts`, `Awards`, `Insurance`, `Accounts`, `Reveals`, `Timing`, `Expiry`, `Entry`, `Rankings`, `Feeds`:
  what the entrypoints, the leaderboards and the price selection do, against definitions that share no
  function with them, written in terms of prices, stakes, configuration, clock and history alone.
- `Market` (with `Loops` and `Streaming`): the contract as a class whose methods update storage step by
  step, with the loops of the source; each entrypoint is proved to do exactly what `Ledger` says.
- `Preview`: the read-only payout preview. `SettlementMath` and `Agreement`: the pure settlement module
  and its equality with the live loops. `Replay`: the offline replay engine.
- `Leaderboard`, `Oracle`, `Archive`, `Cursors`: bounded leaderboards with seasons, the median oracle
  path and the price window, archived rounds with their pages, and the pages of the active round.
- `Contract`: ledger, leaderboards and archive as one machine, and what they agree on in every run.

Addresses are natural numbers, of which only the order is used. `minted` and `dust` are history: what
has entered the ledger, and what rounding has left outside every account. Conservation assumes that
what was ever minted fits an i128; the statements that nothing overflows assume it is below 2^63.

Where the code differs from its own comments or from what one might expect, the model follows the code:

- `contracts/src/settlement.rs:1353` removes the active round marker whichever round is settled, while
  the comments at lines 94-96 and the guarded removal at 1356-1367 say that a newer round must survive.
  `Runs.StepAccounts` gives the exact condition, `Orphans` a run, `Runs.OrphanStuck` the consequence.
- `contracts/src/settlement.rs:2529` and `:2533` take two ids off the retention list but delete one
  archive entry. `Archive.CompleteUnlessPruned` gives the exact condition.
- The replay engine always charges the fee on the pot. `Replay.ReplayUnderFeeOnWinnings` says when that
  agrees with a round settled under FeeOnWinnings, Up/Down or Precision.
- The repository's README.md (line 199) and SECURITY_REVIEW.md (line 77) promise a participant cap for
  Precision rounds, which `commit_prediction` does not look at. `Caps.StepCaps` and `Caps.RunCaps` say
  exactly when the cap holds, `Commitments.CommitmentsExceedTheCap` is a run past it.
- The Precision cursor stops at a page without predictions. `Cursors.PredictionsListedIff` says exactly
  when following it lists every prediction, `Commitments.CommitmentsHideAPrediction` is a run that hides
  one.
- The two median routines differ when the middle prices overflow (`Oracle.MediansAgree`).

## Model

| member | source | states |
|---|---|---|
| `Runs.Conservation` | `contracts/src/settlement.rs:124-322` | after any run of calls, balances + pending winnings + treasury + insurance fund + recorded stakes + rounding dust equal what was minted, and none of them is negative |
| `Runs.DustOnly` | `contracts/src/settlement.rs:2263-2346` | a step leaves something outside every account only when it settles a competitive Up/Down round (less than one unit per winner) or cancels with insurance (less than one unit per participant) |
| `Runs.RunKeeps` | `contracts/src/betting.rs:356-404` | the whole invariant (pools are sums of positions, participant lists are exactly the users with a stake, reveals carry the committed amount, exits are final) holds in every state a run reaches |
| `Runs.StepSafe` | `contracts/src/settlement.rs:434-441` | every committed call keeps the invariant, and only minting changes the total minted |
| `Runs.SettledOnce` | `contracts/src/settlement.rs:1255-1279` | a round that has left the ledger never leaves again, is never live again, and no stake of it is recorded again |
| `Runs.StepShape` | `contracts/src/settlement.rs:97-121` | a round leaves only by an oracle result (at once or after the dispute window), cancellation, fallback refund or void; every other step begins a round, stages a result, or touches the active round's books only |
| `Runs.StepAccounts` | `contracts/src/settlement.rs:1353-1367` | a committed step keeps every round active, disputed or exited exactly when it is not a finalization made while another round is active |
| `Runs.OrphanStuck` | `contracts/src/settlement.rs:1353-1353` | a round that lost its active marker that way stays neither active nor disputed nor exited, and its stakes stay recorded, in every later run |
| `Orphans.FinalizingStrandsANewerRound` | `contracts/src/settlement.rs:1353-1353` | a concrete run in which finalizing one round strands the stake of a newer one for good |
| `Runs.PayloadBindsOnce` | `contracts/src/betting.rs:163-231` | two states of a run whose active rounds share a start ledger have the same round, so an oracle payload binds to at most one round of the history |
| `Runs.PayloadResolvesOnce` | `contracts/src/settlement.rs:539-548` | once a payload has resolved a round, no payload bound to the same start ledger resolves anything again, however the ledger goes on |
| `Runs.CreatedRoundIsNew` | `contracts/src/betting.rs:163-199` | a round created later in a run has a higher id than every earlier round and a start ledger none of them had |
| `Caps.StepCaps` | `contracts/src/betting.rs:485-496` | a committed call keeps the users of an active Precision round within the configured maximum exactly when it is not a commitment to a full round, nor a reconfiguration below the users already there |
| `Caps.RunCaps` | `contracts/src/betting.rs:538-643` | the cap holds in every state of a run exactly when every committed call of the run respects it |
| `Commitments.CommitmentsExceedTheCap` | `contracts/src/betting.rs:538-643` | a concrete run in which two commitments enter a round that takes one user |
| `Steps.StepKeeps` | `contracts/src/settlement.rs:434-441` | every committed call of every entrypoint keeps the whole invariant |
| `Steps.CashOutMoney` | `contracts/src/betting.rs:798-845` | after an early cash-out pending winnings, treasury and fund have together gained exactly the stake that left the books |
| `Safety.SettlementSafe` | `contracts/src/settlement.rs:1284-1304` | with less than 2^63 minted, settling a live round computes all fees and payouts without overflow and can fail only through the pending-winnings cap |
| `Safety.RefundSafe` | `contracts/src/settlement.rs:2577-2678` | refunding a live round can fail only through the pending-winnings cap |
| `Safety.CancelSafe` | `contracts/src/settlement.rs:124-322` | with less than 2^63 minted, cancelling with or without insurance can fail only through the pending-winnings cap |
| `Safety.ClaimSafe` | `contracts/src/settlement.rs:369-403` | in a reachable state a claim never overflows the balance, and a reclaim fails only for its stated reasons |
| `Safety.ExactlyOneOfVoidAndFinalize` | `contracts/src/settlement.rs:1392-1518` | while a dispute is pending, the deadline enables exactly one of void and finalize at any ledger |
| `Safety.VoidSafe` | `contracts/src/settlement.rs:1392-1491` | before the deadline a void can fail only through the cap; from the deadline on it is refused |
| `Safety.BetSafe` | `contracts/src/betting.rs:326-404` | a bet reports an overflow exactly when an exposure cap is configured and the stake added to the exposure leaves the integer type, which no affordable stake does; adding it to the pool never overflows |
| `Safety.PredictSafe` | `contracts/src/betting.rs:419-527` | the same for a direct prediction |
| `Safety.CommitSafe` | `contracts/src/betting.rs:538-643` | the same for a commitment |
| `Safety.CashOutSafe` | `contracts/src/betting.rs:756-895` | in an early cash-out neither the penalty, the pool, the pending winnings nor the fee accounts overflow |
| `Safety.MoneyMovesSafe` | `contracts/src/insurance.rs:384-490` | fee withdrawals, top-ups and fund withdrawals never overflow an account |
| `Records.EveryStakeIsAnswered` | `contracts/src/settlement.rs:2542-2575` | whenever a round leaves, every stake of it, unanswered before, is answered by exactly one record, with its mode, side or guess, which returns the whole stake unless the round was settled on a price; nothing else is recorded, earlier records stay, and no stake of it stays recorded |
| `Records.SettlementCredits` | `contracts/src/settlement.rs:2263-2346` | a settlement adds exactly the recorded payout to each participant's pending winnings and nothing to anybody else's |
| `Records.CancelCredits` | `contracts/src/settlement.rs:124-322` | a cancellation moves each participant's pending winnings by the own stake plus at most the configured rate on it (nothing on top when not insured), and nobody else's; `Insurance.CancellationCover` says exactly how much |
| `Records.VoidCredits` | `contracts/src/settlement.rs:1392-1491` | a void moves each participant's pending winnings by exactly the own stake and nobody else's |
| `Records.FallbackCredits` | `contracts/src/settlement.rs:2577-2678` | a round short of participants does the same |
| `Steps.CancelPays` | `contracts/src/settlement.rs:156-269` | a cancellation returns every full stake; coverage comes out of the fund, all credits of one user together stay within the configured rate on the own stake, nobody else is covered, and less than one unit per participant is lost to rounding |
| `Books.CoverageFair` | `contracts/src/insurance.rs:317-376` | proportional coverage from a capped total never exceeds the fund; with each user named once, everything one user gets is within the rate on that user's own stake entry, and others get nothing |
| `Engine.UpDownConserves` | `contracts/src/settlement.rs:1590-1696` | fee, payouts and less than one unit per winner make up the pot of an Up/Down round; one-sided and unchanged rounds are returned exactly and free |
| `Engine.CompetitionConserves` | `contracts/src/settlement.rs:2275-2345` | with winner stakes summing to the winning pool, payouts are at most pot minus fee and short of it by less than the number of winners, for both fee models |
| `Engine.UpDownWinnerFloor` | `contracts/src/settlement_math.rs:144-153` | an Up/Down winner gets at least nine tenths of the stake, and at least the whole stake under FeeOnWinnings |
| `Engine.PrecisionConserves` | `contracts/src/settlement.rs:1911-2097` | payouts plus fee equal the stakes of a Precision round under both policies and both fee models; if nobody revealed every stake is refunded and the fee is 0 |
| `Engine.PrecisionPrizes` | `contracts/src/settlement.rs:1822-1878` | the remainder lies in [0, winner count) and goes to the winner with the lowest address; the other winners get the rounded-down share; a stake-weighted winner under FeeOnWinnings gets at least the stake |
| `Engine.PrecisionPayoutsExact` | `contracts/src/settlement.rs:1822-1878` | base payouts fall short of the pool by less than the number of winners, and the first winner's remainder makes them exact |
| `Engine.ClosestExists` | `contracts/src/settlement.rs:1928-2000` | somebody wins exactly when somebody revealed |
| `Engine.UpDownFits` | `contracts/src/settlement.rs:2263-2346` | stakes of less than 2^63 settle in Up/Down mode without overflow |
| `Engine.PrecisionFits` | `contracts/src/settlement.rs:1822-1878` | stakes of less than 2^63 settle in Precision mode without overflow, under both policies and fee models |
| `Fees.UpDownFeeConserves` | `contracts/src/config.rs:1068-1120` | post-fee pools plus fee equal the original pools and stay non-negative, even when the fee exceeds the losing pool |
| `Fees.PrecisionFeeConserves` | `contracts/src/config.rs:1138-1173` | the distributable part plus the fee equal the pot, and FeeOnWinnings leaves at least the winners' stakes |
| `Fees.FeesFit` | `contracts/src/config.rs:1068-1173` | fees of pots below 2^63 never overflow |
| `Shares.SplittingStake` | `contracts/src/settlement_math.rs:144-153` | splitting one stake in two never raises the total payout and lowers it by at most 1 |
| `Shares.SharesOfWhole` | `contracts/src/settlement.rs:2284-2300` | shares of the whole pool never pay out more than the pool and leave less than one unit per positive stake |
| `Verdicts.PrecisionVerdict` | `contracts/src/settlement.rs:1928-2000` | a settled Precision round records a win for exactly the revealed guesses that no other revealed guess is nearer to the price than, over the integers; a loss for the others, once somebody revealed |
| `Verdicts.PrecisionAwards` | `contracts/src/settlement.rs:1822-1878` | the fee is the rounded-down rate of the pot or of the stakes that lost; every winner behind another gets exactly the rounded-down equal or stake-weighted share of the rest, the first at least it, a loser nothing |
| `Verdicts.UpDownVerdict` | `contracts/src/settlement.rs:1590-1696` | the fee and each participant's result and payout in an Up/Down round, from the two prices, the two pools and the own stake |
| `Verdicts.SettlementVerdict` | `contracts/src/settlement.rs:1284-1304` | what the ledger records for each participant of a settled round is that verdict on the predictions, positions and pools recorded before, and treasury and fund gain that fee |
| `Verdicts.ResolveVerdict` | `contracts/src/settlement.rs:501-830` | when a resolution settles a round, every participant's record is the verdict on the reported price |
| `Verdicts.FinalizeVerdict` | `contracts/src/settlement.rs:1493-1518` | a finalization records the verdict on the price staged for the round |
| `Awards.PrecisionSettlement` | `contracts/src/settlement.rs:1880-2100` | a settled Precision round leaves one record for every stake; they divide the recorded stakes, less the configured fee, by the configured policy, or return every stake without a fee when nobody revealed |
| `Verdicts.ScoringVerdict` | `contracts/src/settlement_math.rs:197-268` | which entries the pure module lets win, under absolute and relative scoring and with a confidence band, against the integer distance and its rounded-down ratio |
| `Verdicts.PureVerdict` | `contracts/src/settlement_math.rs:182-253` | under absolute scoring without a band they are the revealed guesses no other is nearer than |
| `Insurance.CancellationCover` | `contracts/src/settlement.rs:156-269` | an insured cancellation takes out of the fund exactly the configured rate of every recorded stake, each rounded down, or the whole fund if that is less, and each participant gets on top of the own stake the rounded-down part of it in proportion to that stake; any other cancellation takes and pays nothing |
| `Insurance.CoverageTotalIs` | `contracts/src/insurance.rs:317-376` | the coverage asked for is the sum of the rounded-down rates of the stakes |
| `Accounts.FeeIsSplit` | `contracts/src/insurance.rs:230-272` | of a fee the fund gains the configured part, rounded down, the treasury the rest, and nothing else changes |
| `Accounts.SettlementSplitsFee` | `contracts/src/config.rs:1030-1066` | the fee of a settlement is split that way |
| `Accounts.CashOutPays` | `contracts/src/betting.rs:756-895` | an early cash-out withholds the rounded-down configured rate of the stake as a fee, split that way, adds the rest to the user's pending winnings and records it, and changes nobody else's accounts |
| `Accounts.BetMoves` | `contracts/src/betting.rs:356-404` | a bet moves exactly the stake out of the user's balance and records it under the active round and that user, with the side; no other account or stake changes |
| `Accounts.PredictMoves` | `contracts/src/betting.rs:419-527` | the same for a direct prediction, with the price |
| `Accounts.CommitMoves` | `contracts/src/betting.rs:538-643` | the same for a commitment, with the digest, not yet revealed |
| `Accounts.MintMoves` | `contracts/src/betting.rs:898-993` | minting gives a new user 1,000 units of 10^7 parts, and everybody else and a known user nothing |
| `Accounts.ClaimMoves` | `contracts/src/settlement.rs:369-403` | a claim moves the whole of the user's pending winnings into the balance, reports the amount and touches nobody else; it is refused exactly while the contract is fully paused |
| `Accounts.WithdrawFeeMoves` | `contracts/src/config.rs:220-265` | a fee withdrawal moves the amount from the treasury to the recipient, and goes through exactly for a positive amount the treasury holds |
| `Accounts.WithdrawInsuranceMoves` | `contracts/src/insurance.rs:439-490` | the same for the insurance fund |
| `Accounts.TopUpMoves` | `contracts/src/insurance.rs:384-437` | a top-up moves the amount from the administrator's balance to the fund, and goes through exactly for a positive amount the administrator has |
| `Accounts.ReclaimMoves` | `contracts/src/admin.rs:1208-1287` | a reclaim moves the whole of the user's pending winnings to the administrator's balance, and goes through exactly when an expiry is configured and that many ledgers have passed since they were last written |
| `Expiry.NothingReclaimedEarly` | `contracts/src/admin.rs:1208-1287` | over a whole run, winnings that can be reclaimed have not grown in any call of the last expiry period |
| `Expiry.StepStamps` | `contracts/src/common.rs:143-170` | in every committed call, pending winnings that grow are stamped with the ledger of that call, and no other stamp is made |
| `Reveals.RunOpens` | `contracts/src/betting.rs:645-722` | in every state of a run, a recorded prediction that has a commitment has the price the digest commits to, with a salt that is not one byte repeated |
| `Reveals.CommitmentBinds` | `contracts/src/betting.rs:645-722` | however the ledger goes on, a prediction recorded under a commitment to a price has that price |
| `Reveals.WrongRevealChangesNothing` | `contracts/src/betting.rs:692-700` | a reveal with any other price or salt fails and leaves the state as it was |
| `Timing.StepTiming` | `contracts/src/settlement.rs:501-830` | stakes go through only before betting closes, less the buffer; reveals and cash-outs only between the close and the end; a result only from the end ledger on and only for the named start ledger, and it refunds, stages or settles as participants and dispute window say; voids and finalizations only on their side of the deadline, and after the end |
| `Timing.NothingEndsEarly` | `contracts/src/settlement.rs:1392-1518` | in every reachable state: no round is settled, staged, refunded, voided or finalized before its end ledger, except by a cancellation |
| `Entry.CreateGoesThrough` | `contracts/src/betting.rs:112-247` | exactly when a round can be created, and the round it is |
| `Entry.BetGoesThrough` | `contracts/src/betting.rs:296-417` | a bet goes through exactly for a newcomer to an open Up/Down round, within the balance and the configured limits |
| `Entry.PredictionGoesThrough` | `contracts/src/betting.rs:419-527` | the same for a direct prediction, in a Precision round that is not full and for a price in range |
| `Entry.CommitmentGoesThrough` | `contracts/src/betting.rs:538-643` | the same for a commitment to a digest that is not all zeros, in a Precision round however full |
| `Entry.RevealGoesThrough` | `contracts/src/betting.rs:645-722` | a reveal goes through exactly in its window, for an unrevealed commitment to this price and salt |
| `Entry.CashOutGoesThrough` | `contracts/src/betting.rs:756-895` | an early cash-out goes through exactly in its window, with a position and a configured penalty, when the rest of the stake fits under the cap on pending winnings |
| `Rankings.LifetimeRankings` | `contracts/src/leaderboard.rs:69-171` | after any run of results and resets, each user in the wins index has more wins than every later one, or as many and a smaller address; everybody with a result who is left out has fewer than every listed one, or as many and a larger address, and then the list has 100 entries; the same for best streaks |
| `Rankings.SeasonRankings` | `contracts/src/leaderboard.rs:467-555` | the same, of the results of one season alone, for the rankings served live and from the archive, with each entry showing the user's own figures |
| `Rankings.RecordIs` | `contracts/src/settlement.rs:2809-2859` | a user's counters are the wins and losses among the own results, the length of the run of wins they end in, and the longest run of wins in them |
| `Rankings.RunTables` | `contracts/src/leaderboard.rs:296-345` | after any run every counter, lifetime and of each season, is that record of the accepted results |
| `Rankings.PagesTile` | `contracts/src/leaderboard.rs:557-575` | read page by page a ranking is complete, in order and without repetition, and no page is longer than asked for |
| `Feeds.SelectionVerdict` | `contracts/src/settlement.rs:1016-1187` | price, survivor count and every error of the multi-feed selection, from the observations alone: the price is the mean of the two observations of middle rank; with a maximum set its rounded-down deviation from the start price is within it or the override was armed, and the deviation error is reported exactly when not; the survivors are the observations whose rounded-down deviation from the price is within the threshold |
| `Streaming.ScanFindsWinners` | `contracts/src/settlement.rs:1911-1990` | the mask and the winner list of the one-pass scan are exactly the revealed predictions at minimal distance, in address order |
| `Streaming.WinnersFirst` | `contracts/src/settlement.rs:2011-2068` | paying the winners first and recording the losers afterwards leaves the same credits and records as one pass in address order |
| `Market.Market.Execute` | `contracts/src/settlement.rs:434-441` | any entrypoint either commits exactly the state the state machine prescribes or leaves the state as it was, and keeps the invariant |
| `Market.Market.ExecuteAll` | `contracts/src/settlement.rs:434-441` | a run of calls on the contract object is a run of the state machine |
| `Market.Market.MintInitial` | `contracts/src/betting.rs:898-993` | mints the allowance once per user and reports the balance |
| `Market.Market.CreateRound` | `contracts/src/betting.rs:112-247` | creates the next round, or fails with the source's error, changing nothing |
| `Market.Market.CheckOpen` | `contracts/src/betting.rs:325-345` | the shared exposure, mode and betting-window guards, in order |
| `Market.Market.PlaceBet` | `contracts/src/betting.rs:296-417` | moves the stake from the balance to a position, the participant list and one pool |
| `Market.Market.PlacePrediction` | `contracts/src/betting.rs:419-527` | moves the stake to an open prediction, under the participant cap |
| `Market.Market.CommitPrediction` | `contracts/src/betting.rs:538-643` | moves the stake to a sealed commitment; there is no participant cap |
| `Market.Market.RevealPrediction` | `contracts/src/betting.rs:645-722` | turns a matching commitment into a prediction of the committed amount |
| `Market.Market.CashOutEarly` | `contracts/src/betting.rs:756-895` | takes a position out of pool and list, pays the rest of the stake and keeps the penalty as a fee, all or nothing |
| `Market.Market.LeaveList` | `contracts/src/betting.rs:864-881` | the rebuilt participant list is the old one without the user |
| `Steps.WithoutDrops` | `contracts/src/betting.rs:864-881` | the rebuilt list has no duplicates and names exactly the other users |
| `Market.Market.CancelRound` | `contracts/src/settlement.rs:124-322` | refunds, coverage and clean-up of the active round, all or nothing |
| `Market.Market.PayCoverage` | `contracts/src/settlement.rs:240-262` | each participant is credited the proportional share of the stake at the same index |
| `Market.Market.CoverageWanted` | `contracts/src/settlement.rs:234-239` | the sum of the per-stake coverage amounts, or the first overflow on the way with its error |
| `Market.Market.DeductCoverage` | `contracts/src/insurance.rs:340-376` | takes the requested amount off the fund, capped at what it holds |
| `Market.Market.ResolveRound` | `contracts/src/settlement.rs:501-830` | the settlement part of resolving: bound to the start ledger, after the end ledger, then settle, all or nothing |
| `Market.Market.SettleWithPrice` | `contracts/src/settlement.rs:1215-1282` | below the participant threshold everybody is refunded, with a dispute window the result is staged, otherwise the round is settled |
| `Market.Market.RefundRound` | `contracts/src/settlement.rs:2577-2668` | every stake goes back to pending winnings and the round is closed |
| `Market.Market.RefundUnderThreshold` | `contracts/src/settlement.rs:2577-2678` | the refund of a round short of participants, with the active marker removed |
| `Market.Market.CompleteSettlement` | `contracts/src/settlement.rs:1284-1385` | pays, clears the round's storage and removes the active marker, whichever round is settled |
| `Market.Market.VoidRound` | `contracts/src/settlement.rs:1392-1491` | before the deadline every recorded stake is returned and the dispute removed |
| `Market.Market.FinalizeRound` | `contracts/src/settlement.rs:1495-1518` | from the deadline on the staged price is settled and the dispute removed |
| `Market.Market.ResolveUpDownMode` | `contracts/src/settlement.rs:1590-1696` | the Up/Down dispatch: refund, or pay the side the price moved to |
| `Market.Market.RecordWinnings` | `contracts/src/settlement.rs:2263-2346` | collects the fee, pays each winner's floor share and records every participant |
| `Market.Market.ReturnPositions` | `contracts/src/settlement.rs:2231-2261` | each participant is credited exactly the recorded stake |
| `Market.Market.ResolvePrecisionMode` | `contracts/src/settlement.rs:1880-2100` | the streaming scan, fee, prizes and records of a Precision round do what the declarative settlement says |
| `Market.Market.ScanPredictions` | `contracts/src/settlement.rs:1911-1990` | the one-pass loop with mask reset computes the pot, the least distance, the mask and the winner list |
| `Market.Market.CalculatePrecisionPayouts` | `contracts/src/settlement.rs:1822-1878` | equal or stake-weighted base payouts with the remainder on the first winner |
| `Loops.KeepClosest` | `contracts/src/settlement.rs:1962-1987` | one guess against the best so far: skip, join, or start over with the mask reset behind it |
| `Market.Market.AccumulatePending` | `contracts/src/common.rs:143-170` | adds to pending winnings under the cap, or changes nothing |
| `Market.Market.PersistUserOutcome` | `contracts/src/settlement.rs:2542-2575` | the first record of a round and user stays |
| `Market.Market.CollectProtocolFee` | `contracts/src/config.rs:1030-1066` | splits a fee between insurance fund and treasury |
| `Market.Market.CollectInsuranceFee` | `contracts/src/insurance.rs:230-272` | moves the configured part of a fee to the fund |
| `Market.Market.ClearRoundStorage` | `contracts/src/settlement.rs:97-114` | removes every participant's keys and the participant list of one round, and nothing else |
| `Market.Market.ClaimWinnings` | `contracts/src/settlement.rs:369-403` | moves pending winnings to the balance, or does nothing |
| `Market.Market.ClaimMany` | `contracts/src/settlement.rs:447-499` | claims in list order after the size and duplicate checks; any failure changes nothing |
| `Claims.NeighboursFindDuplicates` | `contracts/src/common.rs:126-140` | comparing neighbours after sorting finds exactly the lists with a duplicate |
| `Claims.ClaimManyIs` | `contracts/src/settlement.rs:447-499` | a batch succeeds exactly for at most 50 different users, and then has the state of claiming one by one |
| `Claims.ClaimOrderIrrelevant` | `contracts/src/settlement.rs:447-499` | the order of a batch does not matter to the ledger |
| `Claims.BatchIsSingles` | `contracts/src/settlement.rs:369-403` | a batch is the run of its single claims |
| `Market.Market.WithdrawFee` | `contracts/src/config.rs:220-265` | moves treasury money to a recipient's balance |
| `Market.Market.TopUpInsurance` | `contracts/src/insurance.rs:384-429` | moves the administrator's balance into the fund |
| `Market.Market.WithdrawInsurance` | `contracts/src/insurance.rs:439-490` | moves fund money to a recipient's balance |
| `Market.Market.ReclaimExpired` | `contracts/src/admin.rs:1208-1287` | moves expired pending winnings to the administrator's balance |
| `Preview.SimulatePayout` | `contracts/src/queries.rs:529-808` | changes nothing, succeeds exactly when settling at that price could compute its payouts, and then shows the mode, pools, Precision pot and fee model of the round and the fee and every outcome of that settlement |
| `Preview.PreviewIsRecorded` | `contracts/src/settlement.rs:1284-1304` | what settlement records for each participant, and adds to treasury and fund, is the settlement the preview shows |
| `SettlementMath.FindPrecisionWinners` | `contracts/src/settlement_math.rs:197-268` | winners are exactly the entries the scoring rule accepts, in order; everybody else loses; the pot is the saturating sum |
| `SettlementMath.SomebodyScores` | `contracts/src/settlement_math.rs:240-253` | under every scoring rule somebody wins exactly when somebody revealed |
| `SettlementMath.WiderBandKeepsWinners` | `contracts/src/settlement_math.rs:243-247` | a wider confidence band never takes a win away |
| `SettlementMath.ClosestWinsRelatively` | `contracts/src/settlement_math.rs:216-225` | the closest guesses also win under relative scoring |
| `SettlementMath.SplitPotAmongWinners` | `contracts/src/settlement_math.rs:276-301` | equal parts with the remainder on the first, adding up to the pot |
| `SettlementMath.SplitPotStakeWeighted` | `contracts/src/settlement_math.rs:306-351` | stake-weighted parts with the remainder on the first |
| `SettlementMath.ComputeUpDownPayouts` | `contracts/src/settlement_math.rs:378-447` | the Up/Down payout vector |
| `SettlementMath.ComputePrecisionPayouts` | `contracts/src/settlement_math.rs:480-557` | the Precision payout vector under any scoring and payout policy, whatever indices the entries carry |
| `Agreement.UpDownAgrees` | `contracts/src/settlement_math.rs:378-447` | under FeeOnPot the pure Up/Down vector of a booked round succeeds exactly when the live settlement does, and pays everybody the same |
| `Agreement.PrecisionAgrees` | `contracts/src/settlement_math.rs:480-557` | under FeeOnPot and both payout policies the pure Precision vector succeeds exactly when the live settlement does, and pays everybody the same |
| `Agreement.SameWinners` | `contracts/src/settlement_math.rs:182-194` | without a band the pure module's winners are the streaming scan's winners |
| `Agreement.SplitAgrees` | `contracts/src/settlement_math.rs:276-351` | both ways of assigning the remainder give the same payouts |
| `Agreement.AbortsWhenFeeTakesAll` | `contracts/src/settlement_math.rs:519-541` | the pure module aborts exactly when a positive pot has a winner and either the fee leaves nothing of it, or a weighted split looks up an index that is not a position |
| `Replay.ValidateSchema` | `replay-engine/src/transcript.rs:158-180` | reports the first schema violation in the source's order |
| `Replay.SchemaAccepts` | `replay-engine/src/transcript.rs:158-180` | a transcript passes exactly when version, count and every participant's position are right |
| `Replay.CanonicalPasses` | `replay-engine/src/transcript.rs:183-186` | after canonical sorting a transcript passes exactly when its indices are 0, 1, ... in any recorded order |
| `Replay.ReplayIsLive` | `replay-engine/src/engine.rs:62-215` | for FeeOnPot and equal payouts, replaying the address-sorted transcript of a live round succeeds exactly when its payouts can be computed, and returns the live fee, payouts and classification |
| `Replay.ReplayedRefundIsLive` | `replay-engine/src/engine.rs:71-112` | replaying a cancelled, voided or under-threshold round returns every recorded stake and no fee, as the ledger records it |
| `Replay.ReplayUnderFeeOnWinnings` | `replay-engine/src/engine.rs:62-215` | replaying a round settled under FeeOnWinnings with equal payouts, Up/Down or Precision, returns what the ledger records exactly when nobody wins it or charging the pot and charging the lost stakes round to the same fee |
| `Replay.ReplayMayDiffer` | `replay-engine/src/engine.rs:143-156` | two stakes of 100 at ten percent: the ledger keeps 10, replay 20 |
| `Replay.CompareReplay` | `replay-engine/src/diagnostics.rs:14-71` | lists exactly the differing fields, in order, with both values, and stops at a length mismatch |
| `Replay.NoMismatchIff` | `replay-engine/src/diagnostics.rs:14-71` | there is no mismatch exactly when the expected block is the replayed one |
| `Replay.AssertLiveMatchesReplay` | `replay-engine/src/diagnostics.rs:73-83` | succeeds exactly when the expected block is the replayed one |
| `Leaderboard.RunIsExact` | `contracts/src/leaderboard.rs:69-171` | after any run of wins, losses and season resets each index is the true top 100 of its scope, and each past season is archived with the true top of its final table |
| `Leaderboard.RunCounts` | `contracts/src/settlement.rs:2809-2859` | in a history of fewer than 2^32 - 1 events nothing is refused and the ranked counters are exactly that history's wins, losses, current and best streaks, since the beginning or since the last reset |
| `Leaderboard.TopIsUnique` | `contracts/src/leaderboard.rs:62-67` | there is only one such ranking: metric descending, address ascending, no duplicates |
| `Leaderboard.RerankedIsTop` | `contracts/src/leaderboard.rs:149-171` | drop, re-insert, sort and truncate keeps the index exact when the user's score did not fall |
| `Leaderboard.PlayedIsExact` | `contracts/src/settlement.rs:2809-2859` | one win or loss keeps both indexes of a scope exact |
| `Leaderboard.PastIsFrozen` | `contracts/src/leaderboard.rs:347-356` | a past season's archive and counters never change again |
| `Contract.RunAgrees` | `contracts/src/settlement.rs:1284-1385` | after any run of ledger calls and season ends, every user's lifetime wins and losses are the numbers of recorded wins and losses, the archive holds only rounds that have left, under the status they left with, all of them while the retention limit is not passed, and each user's list names rounds the user has a record in, once each |
| `Contract.CommitKeeps` | `contracts/src/settlement.rs:2005-2068` | every committed call, with its counters and archive entry, keeps that agreement |
| `Contract.CountersNeverRefuse` | `contracts/src/settlement.rs:2809-2859` | while fewer than 2^32 - 1 results have been counted, a call commits exactly when its ledger step does |
| `Contract.AddHistoryIs` | `contracts/src/settlement.rs:2373-2384` | filing a round appends it to the list of each participant and to no other |
| `Leaderboard.SeasonRankingIsTop` | `contracts/src/leaderboard.rs:467-555` | live or archived, the served ranking is the top of that season's own table |
| `Leaderboard.ReinsertSorted` | `contracts/src/leaderboard.rs:69-121` | the insertion loops compute the ranked list |
| `Leaderboard.WithoutUser` | `contracts/src/leaderboard.rs:133-141` | the filtered list |
| `Leaderboard.UpsertBounded` | `contracts/src/leaderboard.rs:123-131` | the first 100 of the sorted list |
| `Leaderboard.Leaderboards.UpdateLeaderboards` | `contracts/src/leaderboard.rs:149-171` | re-ranks one user in both lifetime indexes |
| `Leaderboard.Leaderboards.UpdateSeasonStats` | `contracts/src/leaderboard.rs:296-345` | writes the season counters and re-ranks the user in the season |
| `Leaderboard.Leaderboards.UpdateStats` | `contracts/src/settlement.rs:2809-2859` | lifetime and season counters and indexes after one result, all or nothing |
| `Leaderboard.Leaderboards.ResetSeason` | `contracts/src/leaderboard.rs:357-453` | freezes both rankings and the number of distinct users, advances the season and clears the live indexes |
| `Leaderboard.Leaderboards.SeasonPage` | `contracts/src/leaderboard.rs:467-575` | a page of the live index or of the archive |
| `Leaderboard.CountDistinct` | `contracts/src/leaderboard.rs:388-405` | the number of different users in both rankings |
| `Oracle.MedianIsRobust` | `contracts/src/settlement.rs:1054-1081` | if strictly more than half of the observations lie in an interval, so does the median, for odd and even counts |
| `Oracle.SelectionIgnoresOrder` | `contracts/src/settlement.rs:1054-1187` | the order of the observations changes neither price nor survivor count nor error |
| `Oracle.SelectedPrice` | `contracts/src/settlement.rs:1146-1187` | a selected price is positive, lies where the majority lies, and has the quorum of survivors around it |
| `Oracle.SelectMultiFeed` | `contracts/src/settlement.rs:1016-1187` | the loops compute the declarative price selection, with its errors in order |
| `Oracle.SortPrices` | `contracts/src/settlement.rs:1054-1068` | the inline insertion sort |
| `Oracle.SortPricesInPlace` | `contracts/src/settlement_math.rs:593-603` | sorting by shifting within the slice gives the same order |
| `Oracle.MediansAgree` | `contracts/src/settlement_math.rs:609-622` | the two medians agree exactly when the middle prices do not overflow; otherwise one reports it and the other saturates |
| `Oracle.CountSurvivors` | `contracts/src/settlement.rs:1146-1170` | counts the observations within the outlier threshold |
| `Oracle.TwapRing.Record` | `contracts/src/settlement.rs:2753-2764` | the ring always holds the last 64 prices ever recorded |
| `Oracle.TwapRing.ReferencePrice` | `contracts/src/settlement.rs:2714-2735` | the reference price is the window mean of the full history, with its errors |
| `Oracle.WindowMeanBounds` | `contracts/src/admin.rs:421-431` | for every permitted window that mean is rounded down and lies between the least and the greatest of the last prices |
| `Archive.Archives.ArchiveRound` | `contracts/src/settlement.rs:2348-2539` | files the summary, appends to each participant's history and prunes to the retention limit |
| `Archive.FilingKeepsListed` | `contracts/src/settlement.rs:2505-2538` | every listed round has an archive entry and the list stays within the limit |
| `Archive.CompleteUnlessPruned` | `contracts/src/settlement.rs:2505-2534` | list and archive hold the same rounds after filing exactly when nothing had to be pruned |
| `Archive.PruningForgetsAnEntry` | `contracts/src/settlement.rs:2529-2533` | a concrete filing after which an entry is kept but no longer listed |
| `Archive.ForgottenStays` | `contracts/src/settlement.rs:2505-2534` | an entry that has dropped off the list is never deleted |
| `Archive.Archives.UserHistory` | `contracts/src/queries.rs:240-283` | the downward index loop reads the page of the reversed history |
| `Archive.HistoryPagesTile` | `contracts/src/queries.rs:240-283` | pages at offsets 0, k, 2k, ... are the reversed history without the rounds no longer archived |
| `Cursors.FindCursorPosition` | `contracts/src/queries.rs:815-829` | the first position above the cursor |
| `Cursors.PositionsPage` | `contracts/src/queries.rs:910-956` | one cursor page of Up/Down positions and the cursor for the next |
| `Cursors.PredictionsPage` | `contracts/src/queries.rs:858-904` | one cursor page of Precision predictions and the cursor for the next |
| `Cursors.PositionsAreAllListed` | `contracts/src/queries.rs:910-956` | following the cursor from the start lists every participant's position exactly once in address order |
| `Cursors.WalkStopsAtAGap` | `contracts/src/queries.rs:891-903` | a page without entries carries no cursor, so a reader stops there whatever follows |
| `Cursors.WalkIsCompleteIff` | `contracts/src/queries.rs:858-904` | following the cursor from any start lists every entry exactly when no stretch as long as a page is without entries and followed by one |
| `Cursors.PredictionsListedIff` | `contracts/src/queries.rs:858-904` | in an active Precision round the listing is in address order and contains every prediction exactly when no page-long stretch of unrevealed commitments comes before an open prediction |
| `Commitments.CommitmentsHideAPrediction` | `contracts/src/queries.rs:891-903` | a reachable state in which pages of two list nothing although a prediction is recorded |

## Left out

- Market.Market.ResolveRound: the oracle's signature, freshness, deviation, confidence, nonce, network and heartbeat checks are one boolean, and a failing gate reports one error code; archive and counters as for CompleteSettlement.
- Market.Market.MintInitial: the per-ledger and per-epoch mint limits are one boolean with one error code.
- Market.Market.CancelRound: when computing the coverage overflows and crediting it also fails, only failure is stated, not which of the two errors is reported; the archive entry is written by `Contract.Commit`, not by the object.
- Market.Market.CompleteSettlement: when computing the payouts overflows and an earlier credit also fails, only failure is stated, not which of the two errors is reported; the archive entry and the win and loss counters are fed by `Contract.Commit`, not by the object.
- Market.Market.SettleWithPrice: archive entry and counters as for CompleteSettlement.
- Market.Market.RefundRound: the active marker is removed by its callers; the archive entry is written by `Contract.Commit`.
- Market.Market.VoidRound: the archive entry is written by `Contract.Commit`, not by the object.
- Market.Market.FinalizeRound: one error choice, archive entry and counters as for CompleteSettlement.
- Market.Market.ResolveUpDownMode: the win and loss counters are fed by `Contract.Commit`, not by the object.
- Market.Market.RecordWinnings: the win and loss counters are fed by `Contract.Commit`, not by the object.
- Market.Market.ResolvePrecisionMode: the win and loss counters are fed by `Contract.Commit`, not by the object.
- Oracle.SelectMultiFeed: the override that let a price through is spent in the source; here it is an input.
- Safety.SettlementSafe: a full win or loss counter is outside the ledger; `Contract.CountersNeverRefuse` says when no counter can be full.
- Contract.Commit: counters are updated after the ledger step, so when both would fail the ledger's error is reported; the retention limit is fixed over a run.
- Preview.SimulatePayout: the error code of an overflow is not stated; the participant threshold and the dispute delay are outside the preview in the source too.
- Archive.Archives.ArchiveRound: the summary is reduced to id, status, price, participant count and ledger; the cancelled-round flag is left out.
- Market.Market.RevealPrediction: the hash is symbolic, with equal digests exactly for equal price and salt.
- Replay.ReplayIsLive: covers the equal payout policy, the only one the replay engine implements; strings, hashing and serialisation of transcripts are left out, and an overflowing sum or an index out of range is one abort value.
- `sort_unstable` is taken as the ascending arrangement of a list, not modelled as an algorithm.
- Authorization, access lists, governance, time locks of configuration changes: configuration changes atomically to any valid configuration.
- Time-to-live extension, events, schema checks and migration, the legacy map settlement: storage plumbing without effect on the ledger.
- The weighted oracle committee and collateral modules: the first returns a single report, the second does not touch the ledger.
- Leaderboard queries that scan the active round's participants, and address cursors over lists ordered by wins: their pages do not tile.
- TypeScript bindings, scripts and the command line: text processing.
