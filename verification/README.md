# prediction-game, modelled in Dafny

A model of the execute handlers of the prediction-game CosmWasm contract
(`src/contract.rs`, with the records of `src/state.rs`). Users bet, in one of
several accepted coin denominations, on whether an asset's oracle price goes
Up or Down over a five-minute round. Admins start and stop rounds; the oracle
price is recorded at start and at stop. Stopping a round skims 15% of each
denomination's stake into a treasury pool. Winners claim a payout, a tie
refunds the stake, and admins can pay out of the treasury pool.

Every handler is a pure function from the whole store (config, `ROUND`, `BET`,
`ROUNDDENOMBET`, `TREASURYPOOLDENOM`), the sender, the block time and the
handler's arguments to an `Outcome`:

- `Ok(store', payments)` is the new store plus the `BankMsg::Send` orders emitted.
- `Err(e)` is a domain error; the transaction reverts.
- `Abort` is a Rust panic, which also reverts. Panics come from an `unwrap` of a
  missing price, a division by zero, or a `u64`/`u128` overflow or underflow.

The oracle's exchange rate is a parameter of `StartRound` and `StopRound`.

Files:
- `state.dfy`: the records and maps.
- `errors.dfy`: the error variants the handlers raise.
- `contract.dfy`: the handlers.
- `books.dfy`: the bookkeeping invariant. A round's counters, its totals and its
  `ROUNDDENOMBET` entries are sums over the bets stored under the round.
- `invariant.dfy`: every handler preserves that invariant.
- `properties.dfy`: properties relating several calls, and a worked round.
- `findings.dfy`: three departures of the code from its evident intent, each
  modelled as written and corrected.

The record shapes follow what `src/contract.rs` reads and writes, not the
declarations in `src/state.rs`:

- The stake totals are `u128`, not `NativeBalance`.
- `Round` also has `bet_denoms`, `total_withdrawn_amount` and `fees_claimed`.
- `Config` has a treasury address.
- The per-round denomination totals and the treasury pool are maps keyed as
  the handlers key them.

The `state.rs` file in this version declares none of these, so the model uses
the field set the handlers use.

Integer arithmetic is modelled as checked: an addition past `u128::MAX` or a
subtraction below zero panics. This is an assumption: it holds when the crate's
release profile sets `overflow-checks = true`, as the usual CosmWasm project
template does, but the crate's `Cargo.toml` is not part of this model.

## Model

| member | source | states |
|---|---|---|
| State.IsAdmin | src/state.rs:20-23 | an address is an admin exactly when it occurs in the config's admin list |
| Contract.SenderIsAdmin | src/contract.rs:47-51 | the admin gate holds exactly for listed admins; with no admins it holds for nobody |
| Contract.UpdateAdmins | src/contract.rs:90-104 | succeeds exactly for an admin sender, and non-admins get Unauthorized; success changes only the admin list, to the given list |
| Contract.UpdateAssetDenom | src/contract.rs:107-120 | succeeds exactly for an admin sender, and non-admins get Unauthorized; success changes only the asset denomination |
| Contract.UpdateAcceptedBetDenoms | src/contract.rs:123-136 | succeeds exactly for an admin sender, and non-admins get Unauthorized; success changes only the accepted bet denominations |
| Contract.CreateRound | src/contract.rs:157-203 | panics exactly when `now + 300` overflows `u64`, or when the start passes the lead-time check and `start + 300` overflows; InvalidStartTime exactly when the start is less than 300 s ahead; RoundAlreadyExists exactly for a taken name; otherwise a fresh round (no bets, no prices, stop = start + 300) is added and no other round changes |
| Contract.StartRound | src/contract.rs:207-240 | errors in source order (Unauthorized, RoundDoesNotExist, RoundAlreadyStarted, RoundStopTimePassed), each exactly when its condition is the first to hold; success sets only the start flag, time and price |
| Contract.Percent | src/contract.rs:454 | the skim's multiply-first percentage never exceeds the amount for a percentage up to 100 |
| Contract.SkimFees | src/contract.rs:448-481 | treasury entries of denominations outside `bet_denoms` are unchanged; when `bet_denoms` has no repeats (which the bookkeeping invariant guarantees), the treasury entry of each round denomination with a stake grows by 15% of that stake, created if absent, and overflow happens exactly when some skim does not fit |
| Contract.StopRound | src/contract.rs:419-486 | errors in source order, each exactly when it is the first to hold; past the checks (started or not) the stop never errs and succeeds exactly when every skim fits; success marks the round stopped at the given time and price and skims the fees whatever the prices are |
| Contract.RecordBet | src/contract.rs:282-338 | the new bet is stored; the side's count and stake, the total, the participant count and the per-denomination total grow by one and by the stake; the denomination joins `bet_denoms` once; panics exactly on overflow |
| Contract.CountBet | src/contract.rs:302-311 | one more bet on a side: that side's count grows by one and its stake by the amount; the other side and every other field stay |
| Contract.BetStored | src/contract.rs:282-338 | the store after a bet that overflows nothing: the bet is stored, the round's counters, total, participant count and per-denomination total grow by one and by the stake, the denomination joins `bet_denoms` once, and nothing else changes |
| Contract.PlaceBet | src/contract.rs:244-345 | errors in source order (NoCoinsSent, TooManyCoins, DenomNotSupported, RoundDoesNotExist, RoundAlreadyStarted, BetAlreadyPlaced), each exactly when it is the first to hold; an admissible bet is recorded, panicking exactly on a counter overflow; a stopped round is not rejected |
| Contract.WithdrawBet | src/contract.rs:347-415 | RoundDoesNotExist, RoundAlreadyStarted and BetNotFound exactly when first to hold; success exactly when the bet exists and no counter underflows; success deletes the bet, reverses its counters and refunds the exact stake in one payment |
| Contract.StakedDenoms | src/contract.rs:542-553 | the denominations the payout loop pays: exactly those of `bet_denoms` with a stake entry, and never more than `bet_denoms` holds |
| Contract.DenomPayouts | src/contract.rs:543-558 | one coin per round denomination with a stake entry, in `bet_denoms` order, of `share * stake`; overflow exactly when some product exceeds `u128` |
| Contract.ProportionalPayout | src/contract.rs:542-558 | a zero sharable amount is a division by zero; otherwise one coin per staked denomination, in order, of the sender's share times that denomination's stake, and a result exactly when no coin overflows |
| Contract.PercentTruncated | src/contract.rs:531-535 | dividing the percentage by 100 before multiplying yields zero for every percentage below 100 |
| Contract.IsWinner | src/contract.rs:512-524 | Up wins exactly on a rise and Down exactly on a fall; a winner never has equal prices |
| Contract.MarkClaimed | src/contract.rs:567-576 | a winning claim changes only the bet's `win_claimed` flag and the round's `fees_claimed` flag, and sets both |
| Contract.Settle | src/contract.rs:506-593 | a successful claim pays the sender once and leaves the store as it was or marks the bet won and the round's fees claimed |
| Contract.ClaimWin | src/contract.rs:491-600 | RoundDoesNotExist for an unknown round; RoundStillInProgress exactly when the round is not stopped or the claim is after `stop_time`; a missing price panics; BetNotFound exactly for a non-bettor |
| Contract.WithdrawFromTreasuryPool | src/contract.rs:603-636 | Unauthorized, TreasuryDenomDoesNotExist and InsufficientTreasuryDenomBalance exactly when first to hold; success emits one payment of the amount and leaves the store unchanged |
| Books.InitialInv | src/contract.rs:24-41 | the empty store left by instantiation satisfies the bookkeeping invariant |
| Books.RoundDenomTotalIsSum | src/contract.rs:312-334 | under the invariant a round's total in a denomination equals the sum of its bets' stakes in it |
| Invariant.CreateRoundPreservesInv | src/contract.rs:157-203 | create_round keeps the bookkeeping invariant |
| Invariant.StartRoundPreservesInv | src/contract.rs:207-240 | start_round keeps the bookkeeping invariant |
| Invariant.PlaceBetPreservesInv | src/contract.rs:244-345 | place_bet keeps every round's counters equal to the sums over its bets |
| Invariant.WithdrawBetNeverAborts | src/contract.rs:375-404 | under the invariant none of withdraw_bet's subtractions underflows |
| Invariant.WithdrawBetPreservesInv | src/contract.rs:347-415 | withdraw_bet keeps every round's counters equal to the sums over its bets |
| Invariant.StopRoundPreservesInv | src/contract.rs:419-486 | stop_round keeps the bookkeeping invariant |
| Invariant.ClaimWinPreservesInv | src/contract.rs:491-600 | claim_win keeps the bookkeeping invariant |
| Invariant.WithdrawFromTreasuryPoolPreservesInv | src/contract.rs:603-636 | a treasury withdrawal keeps the bookkeeping invariant |
| Invariant.UpdateAdminsPreservesInv | src/contract.rs:90-104 | updating the admins keeps the bookkeeping invariant |
| Invariant.UpdateAssetDenomPreservesInv | src/contract.rs:107-120 | updating the asset denomination keeps the bookkeeping invariant |
| Invariant.UpdateAcceptedBetDenomsPreservesInv | src/contract.rs:123-136 | updating the accepted denominations keeps the bookkeeping invariant |
| Properties.WithdrawThenPlaceRestores | src/contract.rs:244-415 | withdrawing a bet and re-placing it with the same coin and side restores the store exactly, except the bet's placement time |
| Properties.LegalWithdrawalSucceeds | src/contract.rs:356-405 | under the invariant, a bettor's withdrawal before the start always succeeds, deletes the bet and refunds the exact stake in one payment |
| Properties.PlaceBetIgnoresStop | src/contract.rs:268-282 | place_bet's verdict does not depend on whether the round is stopped |
| Properties.WinnerTestMatchesVerdict | src/contract.rs:512-524 | the winner test, with the tie test, agrees with "Up wins on a rise, Down on a fall, equal prices tie" for both sides |
| Properties.ClaimFollowsVerdict | src/contract.rs:526-590 | within the claim window a loss is YouLost, a tie refunds the exact stake without changing the store (so it can be claimed again), a claimed win is WinAlreadyClaimed, an unclaimed win marks the bet and pays the sender once |
| Properties.SecondWinningClaimFails | src/contract.rs:527-529 | after a winning claim every further claim of the bet fails, with WinAlreadyClaimed inside the window |
| Properties.WinPayoutAsWritten | src/contract.rs:531-559 | as written a sole winner is paid a zero coin and any other participant count panics; no treasury payment is emitted |
| Properties.SkimIgnoresPrices | src/contract.rs:439-481 | the fee skim is the same for every oracle rate |
| Properties.NoAdminsLocksOut | src/contract.rs:47-51 | with an empty admin list every admin-gated handler returns Unauthorized |
| Properties.StartHappensOnce | src/contract.rs:219-222 | a started round cannot be started again |
| Properties.StopHappensOnce | src/contract.rs:432-434 | a stopped round cannot be stopped again, so its fees are skimmed once |
| Properties.StartFreezesBets | src/contract.rs:270-360 | after the start, withdrawals fail (withdraw_bet's check at lines 358-360), and once the start time has passed so do new bets (place_bet's check at lines 270-274) |
| Properties.EarlyStartStillTakesBets | src/contract.rs:207-240 | a round started before its start time still accepts new bets until that time |
| Properties.PlayRound | src/contract.rs:157-486 | a create, bet, start and stop sequence on a fresh store succeeds for every pair of prices and yields a round with one participant |
| Properties.WorkedRound | src/contract.rs:419-600 | a 1000-coin sole bet skims 150 to the treasury; a fall loses, a tie refunds 1000, a rise pays 0 |
| Findings.TreasuryOverdraw | src/contract.rs:617-630 | as written two withdrawals of the full balance both succeed |
| Findings.WithdrawFromTreasuryPoolDebited | src/contract.rs:603-636 | corrected: the same errors, success exactly when the original succeeds, and the paid amount is taken off the pool |
| Findings.DebitedWithdrawalsStayWithinPool | src/contract.rs:617-630 | corrected: two successive withdrawals never exceed the pool |
| Findings.DebitedWithdrawalPreservesInv | src/contract.rs:603-636 | corrected: the debiting withdrawal keeps the bookkeeping invariant |
| Findings.ClaimWindowAsWritten | src/contract.rs:502-504 | as written a round stopped after `stop_time` can never be claimed, and a claim after the stop succeeds only when both happen exactly at `stop_time` |
| Findings.ClaimWinAfterStop | src/contract.rs:502-504 | corrected: a claim is refused only while the round is not stopped, and a claim on a stopped round at any time is settled exactly as the original settles a claim made at `stop_time` |
| Findings.StoppedRoundsStayClaimable | src/contract.rs:502-504 | corrected: once stopped, any later claim is settled exactly as a claim at `stop_time`, and keeps the invariant |
| Findings.TruncatedPercentagesVanish | src/contract.rs:531-535 | as written the sharable amount and the sole winner's payout are zero |
| Findings.PercentBounds | src/contract.rs:454 | multiplying first gives the percentage rounded down, within the amount and positive once it reaches 1 |
| Findings.SoleWinnerShare | src/contract.rs:535 | corrected: the sole winner gets 20% of the stake, rounded down, positive from a stake of 5 |
| Findings.SharableAmount | src/contract.rs:531 | corrected: the sharable amount is 85% of the total, rounded down, positive from a total of 2 |
| Findings.SettleIntended | src/contract.rs:506-593 | corrected: settlement with both percentages multiplied first; it errs exactly when the original errs, and with the same error; a missing price still panics; a tie is exactly as written; a win marks the bet and pays the sender once |
| Findings.StakeShare | src/contract.rs:542 | corrected: the share is the number of whole sharable amounts in the stake (the quotient, with the remainder below one sharable amount), so never more than the stake |
| Findings.IntendedSoleWinIsPaid | src/contract.rs:527-535 | corrected: an unclaimed win of a sole participant marks the bet and pays 20% of the stake in its denomination |
| Findings.IntendedSharedWinIsPaid | src/contract.rs:541-576 | corrected: with several participants and a total of at least 2, an unclaimed win panics exactly when a proportional coin overflows, and otherwise marks the bet and pays those coins |
| Findings.IntendedWinIsPaid | src/contract.rs:531-559 | corrected: a sole winner is paid 20% of the stake, positive from a stake of 5; with several participants and a total of at least 2 the claim is paid one coin per staked denomination, `StakeShare` times its stake, and panics exactly when one of those overflows |

## Left out

- The oracle query is left out. The exchange rate is an input, and a failing query (a `StdError`) is not modelled.
- Storage errors are left out. Each `?` on a load or save would propagate a `StdError`; the store here is a value, so those loads cannot fail.
- Response attributes are left out, as are `instantiate` (beyond the empty store it leaves), `map_validate` and address validation.
- `execute_update_treasury_address` is left out.
- The query entry points, the message and schema files, `TreasuryBalance`, and the `cw2` version handling are left out.
- The bank module's own checks are left out. A real chain rejects a `BankMsg::Send` with a zero coin, which would make the sole winner's claim revert; the model reports the payment the contract emits.
- Overflow checks are assumed on. A build without them would wrap `u64`/`u128` arithmetic instead of panicking, so every `Abort` for an overflow (in `CreateRound`, `RecordBet`, `WithdrawBet`, `SkimFees` and `DenomPayouts`) would become a wrapped value. The model does not cover that build.
- Prices are `Decimal` values that the code only compares with each other, so they are modelled as their integer atomics.
- Contract.Settle: its contract states the store shape and the single payment to the sender. The payout amounts are stated by `Properties.WinPayoutAsWritten` and `Properties.ClaimFollowsVerdict` rather than on `Settle` itself.
- Contract.ProportionalPayout: with the sharable amount as written (always zero) this branch always panics. It is modelled for any sharable amount, but its integer share `stake / sharable` is not given a corrected form. Even with a non-zero sharable amount, that share is zero whenever the stake is below the sharable amount, so the evidently intended proportional payout cannot be read off the code.
- The comment on `execute_claim_win` says it also sends the round's fees to the treasury address. No such payment is emitted; fees reach the treasury pool only through `stop_round`. The model follows the code.

## Findings

| source | as written | input that shows it | evidently intended | confidence | as-written member | corrected member |
|---|---|---|---|---|---|---|
| src/contract.rs:617-630 | the pool balance is checked against the amount but never reduced | a pool holding 150: withdraw 150, then withdraw 150 again; both succeed and pay 300 | subtract the paid amount from the pool | high, not executed | Findings.TreasuryOverdraw | Findings.WithdrawFromTreasuryPoolDebited |
| src/contract.rs:502-504 | a claim is refused when `now > stop_time`, while `stop_round` only runs when `now >= stop_time` | stop at `stop_time + 1`; every later claim returns RoundStillInProgress | refuse claims only while the round is not stopped | high, not executed | Findings.ClaimWindowAsWritten | Findings.ClaimWinAfterStop |
| src/contract.rs:531-535 | `85 / 100 * total` and `20 / 100 * amount` divide first and are 0 | a sole winner staking 1000 is paid 0; two participants make the share's divisor 0 and the claim panics | multiply first, as the skim at line 454 does: 850 of 1000 sharable, 200 of 1000 for a sole winner | high, not executed | Findings.TruncatedPercentagesVanish | Findings.SettleIntended |
