# Quiz-room escrow and rate-limited token, in Dafny

This project models two Soroban smart contracts and proves properties of them.

**The quiz contract** (`contracts/quiz/src/contract.rs`) holds entry fees and
prize tokens in escrow while a quiz room runs. A host opens a room in one of
two prize modes:

- a *prize-pool* room, where the winners share a percentage of the collected fees;
- an *asset* room, where sponsors deposit up to three fixed token prizes.

The room then moves through four stages: it is started (registration opens),
players join and pay, the quiz starts (registration closes), and the room
ends. Ending it pays the platform, the charity, the host and the winners out
of the contract's balance.

**The token contract** (`contracts/fungible-token-interface/src/contract.rs`)
is a pausable fungible token:

- anyone may mint to themselves, at most `MAX_MINT_AMOUNT` per call and once per 24 hours;
- the owner may mint without limit, and may pause and unpause the token;
- transfers and burns are refused while the token is paused.

Modules:

- `Outcomes`: `Option` and `Result`.
- `Numeric`: the Rust integer widths. Each checked `i128`/`u32` operation returns `None` where Rust traps. `Quot` is Rust's truncating `/`.
- `QuizTypes`: rooms, players, prizes, the contract's error enum, and the big-endian room key built by `u32_to_bytes`.
- `TokenLedger`: the token balances the quiz contract moves, and one token transfer.
- `QuizFinance`: the fee split of `distribute_prizes_internal` and `get_room_financials`, and the payout. The payout is a function (`Payout`) and a loop-based method proved equal to it (`DistributePrizes`).
- `QuizRoom`: each entry point's effect on one room, as a function returning the new room or the error.
- `QuizInvariants`: what those transitions keep true.
- `QuizContract`: the contract as a class holding the room store, the deposit totals, the sponsor lists and the token balances. Each entry point is a method proved equal to the `QuizRoom` function.
- `PausableToken`: the rate-limit and pause logic, and the token as a class over a balance map and a pause flag.

Modelling conventions:

- **Arithmetic.** The workspace is assumed to be built with `overflow-checks = true`, so every `+`, `-` and `*` on `i128`, `u32` and `u64` either fits or traps. A trap is `ArithmeticOverflow`.
- **All or nothing.** A trap or an `Err` undoes the whole invocation, storage writes and token transfers alike. So every entry point is modelled as all-or-nothing. For example, `end_room` stores the ended room before paying out; if the payout fails, nothing changes.
- **Token transfers.** A transfer in a foreign token contract is modelled as `TokenLedger.TokenTransfer`. It fails (`TransferRejected`) on a negative amount or an insufficient balance.
- **The pausable-token library.** The token's ledger (`Base`) and the `pausable` module are abstracted as a balance map, an allowance map, a total supply and a flag, with the errors those libraries raise:
  - pausing a paused token fails with `EnforcedPause`;
  - unpausing an unpaused token fails with `ExpectedPause`.

Where the code differs from its own comments, the model follows the code:

- `total_paid_out` is commented "should equal total_pool when game ends" (`contracts/quiz/src/contract.rs:65`), but no entry point ever updates it. It stays 0.
- `MAX_MINT_AMOUNT` is commented "1000 tokens" (`contracts/fungible-token-interface/src/contract.rs:25`), but its value is 10^19. At 18 decimals that is 10 tokens. The model uses the value.
- `validate_fee_token` is commented as the place to check the approved-token list (`contracts/quiz/src/contract.rs:866-870`), but it always accepts. `APPROVED_TOKENS` (`contracts/quiz/src/contract.rs:11-15`) is never read, and `InvalidFeeToken` never occurs.

Other facts of the code the model keeps:

- `distribute_prizes_internal` pays the platform, charity and host shares and the winners' prizes, and nothing else. Whatever part of the pool the winners do not take (rounding, unfilled places, an asset room's whole prize share) stays in the contract. `QuizInvariants.EndPayoutWithinPool` proves the contract's fee-token balance drops by exactly what was paid out, provided the contract is not the platform wallet, the host or a winner, and no asset prize is in the fee token. Neither condition is checked by the contract: `end_room` accepts any winners, and an asset prize in the fee token is paid on top of the distributed total (`QuizFinance.PayAssetsTotal`).
- `PLATFORM_WALLET` and `CHARITY_WALLET` are the same address (`contracts/quiz/src/contract.rs:8-9`), so the platform and charity shares go to one account.
- `init_pool_room` can never fail with `InvalidTotalAllocation` or `CharityBelowMinimum`, because the host-fee and pool caps already rule both out (`QuizRoom.PoolRoomFees`). `init_asset_room` can never fail with `CharityBelowMinimum` either.

## Model

| member | source | states |
|---|---|---|
| QuizTypes.ErrorCode | contracts/quiz/src/contract.rs:71-98 | the 26 contract errors report their codes 1 to 26; the two host traps (an overflow, a rejected transfer) have no contract code |
| QuizTypes.FromCode | contracts/quiz/src/contract.rs:71-98 | exactly the codes 1 to 26 name a contract error, and none names a host trap |
| QuizTypes.ErrorCodeRoundTrip | contracts/quiz/src/contract.rs:71-98 | decoding an error's code gives the error back |
| QuizTypes.FromCodeRoundTrip | contracts/quiz/src/contract.rs:71-98 | encoding a decoded code gives the code back |
| QuizTypes.ErrorCodesDistinct | contracts/quiz/src/contract.rs:71-98 | no two contract errors share a code |
| QuizTypes.U32ToBytes | contracts/quiz/src/contract.rs:859-864 | a room id becomes a 32-byte key whose first 28 bytes are zero |
| QuizTypes.BigEndianRoundTrip | contracts/quiz/src/contract.rs:859-864 | reading back a big-endian encoding of a value below 256^n gives the value |
| QuizTypes.RoomKeyRoundTrip | contracts/quiz/src/contract.rs:859-864 | the room id can be read back from its key |
| QuizTypes.RoomKeyInjective | contracts/quiz/src/contract.rs:859-864 | distinct room ids get distinct storage keys, so rooms never share storage |
| TokenLedger.TokenTransfer | contracts/quiz/src/contract.rs:872-883 | a transfer succeeds iff 0 <= amount <= the sender's balance; the sender loses and the receiver gains the amount; a self-transfer changes nothing; every other holding is untouched |
| QuizFinance.Pay | contracts/quiz/src/contract.rs:872-883 | `transfer_token`: succeeds exactly when the ledger transfer does, with the same new balances, else `TransferRejected` |
| QuizFinance.FeeSplit | contracts/quiz/src/contract.rs:797-801 | with charity+host at most 80%, the split succeeds iff the three basis-point products fit `i128`; the four parts add up to the pool; the only error is `ArithmeticOverflow` |
| QuizFinance.FeeSplitBounds | contracts/quiz/src/contract.rs:797-801 | with a non-negative pool and charity+host at most 80%, every share is non-negative and charity+host+platform is at most the pool |
| QuizFinance.RoomFinancials | contracts/quiz/src/contract.rs:893-916 | `get_room_financials`: the fee split of the pool; should-pay-out equals the pool and the remainder is always 0 |
| QuizFinance.PayFeesDebits | contracts/quiz/src/contract.rs:803-820 | the fee transfers pay platform, charity and (when positive) host shares: the contract's fee-token balance drops by exactly their sum, the platform wallet (which is also the charity wallet) gains platform plus charity share (plus the host share when the host wallet is that wallet), and a host wallet distinct from it gains the host share |
| QuizFinance.PayFees | contracts/quiz/src/contract.rs:803-820 | the fee phase fails only with `TransferRejected`, and moves only the fee token between the contract, the platform, the charity and the host wallet |
| QuizFinance.PayShares | contracts/quiz/src/contract.rs:823-832 | the pool-split phase fails only by overflow or a rejected transfer, and moves only the fee token between the contract and the winners |
| QuizFinance.PayAssets | contracts/quiz/src/contract.rs:833-841 | the asset phase fails only with `TransferRejected`, and touches only the holdings of the contract and the winners |
| QuizFinance.Payout | contracts/quiz/src/contract.rs:792-857 | `distribute_prizes_internal`: fails only by overflow or a rejected transfer; succeeds only when the fee split does; nobody but the contract, the platform, the charity, the host wallet and the winners is affected; a pool room moves only the fee token |
| QuizFinance.DistributePrizes | contracts/quiz/src/contract.rs:792-857 | the loop-based payout makes the same transfers and reports the same distributed total as `Payout` |
| QuizFinance.PayPoolWinners | contracts/quiz/src/contract.rs:823-832 | the pool-split loop equals `PayShares`; with distinct winners other than the contract, winner k gains exactly its percentage `prize * d[k] / 100` of the fee token, for each of the min(winners, places) rounds |
| QuizFinance.PayAssetWinners | contracts/quiz/src/contract.rs:833-841 | the asset loop equals `PayAssets`; with distinct winners other than the contract, winner k gains exactly prize k's amount of prize k's token for each set slot among the first min(winners, 3) |
| QuizFinance.PoolWinnersCredited | contracts/quiz/src/contract.rs:823-832 | with distinct winners other than the contract, the pool phase gives the winner of place k exactly `prize * d[k] / 100` of the fee token |
| QuizFinance.AssetWinnersCredited | contracts/quiz/src/contract.rs:833-841 | with distinct winners other than the contract, the asset phase gives the winner of each set slot k exactly that slot's amount of its token |
| QuizFinance.PaySharesCredits | contracts/quiz/src/contract.rs:823-832 | any holder other than the contract gains in the fee token exactly the shares of the places it holds, whether or not an address wins twice |
| QuizFinance.ShareGainOfPlace | contracts/quiz/src/contract.rs:823-832 | with distinct winners, the winner of place k collects exactly the share of place k |
| QuizFinance.PayAssetsCredits | contracts/quiz/src/contract.rs:833-841 | any holder other than the contract gains in each token exactly the amounts of the set prize slots it wins in that token |
| QuizFinance.AssetGainOfPlace | contracts/quiz/src/contract.rs:833-841 | with distinct winners, the winner of a set slot k collects exactly that slot's amount of its token |
| QuizFinance.SharesWithinPercentages | contracts/quiz/src/contract.rs:825-828 | the winners' shares add up to at most the prize share times the summed percentages over 100 |
| QuizFinance.SharesWithinPrize | contracts/quiz/src/contract.rs:825-828 | with percentages summing to 100, the winners together get at most the prize share |
| QuizFinance.PaySharesTotal | contracts/quiz/src/contract.rs:823-832 | the pool loop adds exactly the winners' shares to the distributed total |
| QuizFinance.PayAssetsTotal | contracts/quiz/src/contract.rs:833-841 | asset prizes add nothing to the distributed total |
| QuizFinance.PaySharesDebits | contracts/quiz/src/contract.rs:823-832 | the pool loop lowers the contract's fee-token balance by exactly what it adds to the distributed total |
| QuizFinance.PayAssetsSparesToken | contracts/quiz/src/contract.rs:833-841 | the asset loop leaves the contract's balance in any token that is not a prize untouched |
| QuizFinance.PayoutDistributed | contracts/quiz/src/contract.rs:803-841 | the reported distributed total is platform + charity + the paid host share + the pool-mode winners' shares |
| QuizFinance.PayoutWithinPool | contracts/quiz/src/contract.rs:797-841 | for a room whose allocations respect the caps, a successful payout distributes between 0 and the whole pool |
| QuizFinance.PayoutDebitsContract | contracts/quiz/src/contract.rs:792-841 | when the contract is not a payee and no prize is in the fee token, its fee-token balance drops by exactly the distributed total |
| QuizRoom.PoolRoomFees | contracts/quiz/src/contract.rs:129-154 | the fee checks pass iff host fee <= 5% and pool <= 25%; the error names the first failed cap; charity is then 50%-80% and charity+host+pool is exactly 80% |
| QuizRoom.PrizeDistribution | contracts/quiz/src/contract.rs:156-179 | the split is first place plus the given non-zero second and third places; accepted iff they sum to 100; overflow only when the sum reaches 2^32 |
| QuizRoom.SumOfPlaces | contracts/quiz/src/contract.rs:156-179 | the split's sum is the sum of the places given and it has 1 to 3 entries, later ones positive |
| QuizRoom.PoolRoom | contracts/quiz/src/contract.rs:106-221 | `init_pool_room`: accepted iff the fee caps hold and the split sums to 100; the new room is fresh (not started, no players, zero totals, host as wallet) and well formed |
| QuizRoom.AssetRoom | contracts/quiz/src/contract.rs:223-319 | `init_asset_room`: accepted iff host fee <= 5%; charity is 80% less the host fee; prizes are the first, the second only when token and amount are both given, and no third |
| QuizRoom.WithThirdPrize | contracts/quiz/src/contract.rs:321-362 | `add_third_prize`: accepted iff the room has not started and is an asset room; only the third slot changes; well-formedness is kept |
| QuizRoom.DepositedPrize | contracts/quiz/src/contract.rs:365-401 | `deposit_prize_assets`: accepted iff not started, asset room, the transfer succeeds and the running total fits `i128`; the total grows by the amount and the tokens move to the contract |
| QuizRoom.StartedRoomAsWritten | contracts/quiz/src/contract.rs:404-444 | `start_room` as written: opens iff not started and each prize on its own is covered by its token's total |
| QuizRoom.StartedRoom | contracts/quiz/src/contract.rs:404-444 | `start_room` corrected: opens iff not started and each prize token's total covers all prizes in that token; only `started` changes |
| QuizRoom.QuizStartedRoom | contracts/quiz/src/contract.rs:447-486 | `start_quiz`: succeeds iff started, not running, not ended and with a player; errors in the contract's order; only `game_started` changes |
| QuizRoom.JoinCheck | contracts/quiz/src/contract.rs:555-589 | the join checks pass iff the room is open for registration, the name has 1-20 bytes, and neither the address nor the name is taken; errors in the contract's order |
| QuizRoom.JoinedRoom | contracts/quiz/src/contract.rs:539-628 | `join_room`: accepted iff the checks pass, the payment fits and is affordable, and the totals fit; the player is appended to both lists and fee plus extras moves to the contract |
| QuizRoom.EndCheck | contracts/quiz/src/contract.rs:640-660 | ending is allowed iff the quiz is running and the room has not ended; otherwise `RoomNotStarted` or `RoomAlreadyEnded` |
| QuizRoom.EndedRoom | contracts/quiz/src/contract.rs:631-690 | ending succeeds iff the checks pass and the payout does; the room is then ended with the given winners and the balances are the payout's |
| QuizRoom.PlacedWinners | contracts/quiz/src/contract.rs:662-671 | `end_room`'s winners: one per given place (at most three), exactly the given places, in place order: first at the head, second right after it, third last |
| QuizRoom.PlayerByScreenName | contracts/quiz/src/contract.rs:704-718 | a player is found iff one holds the name, and the one found holds it |
| QuizRoom.ResolveWinners | contracts/quiz/src/contract.rs:752-770 | each given name that some player holds contributes its holder, and only those: membership iff, the count of held names, first place leading, second right after it and third place last |
| QuizInvariants.SumNonNegative | contracts/quiz/src/contract.rs:593-614 | the payments of admitted players add up to a non-negative amount |
| QuizInvariants.PoolNonNegative | contracts/quiz/src/contract.rs:612-614 | a well-formed room's pool is never negative |
| QuizInvariants.AllocationWithinBudget | contracts/quiz/src/contract.rs:132-154 | every well-formed room keeps charity >= 50%, charity+host <= 80%, and in pool mode charity+host+pool = 80% |
| QuizInvariants.JoinPreservesRoom | contracts/quiz/src/contract.rs:539-628 | a successful join keeps the room well formed (totals are column sums, names and addresses unique) and adds one player |
| QuizInvariants.AppendKeepsRegistry | contracts/quiz/src/contract.rs:573-608 | appending a player with a new address and a new name keeps the two player lists aligned and duplicate-free |
| QuizInvariants.JoinEscrowsPayment | contracts/quiz/src/contract.rs:593-614 | what a join adds to the pool is non-negative and exactly what moves from player to contract |
| QuizInvariants.EndPreservesRoom | contracts/quiz/src/contract.rs:662-679 | ending keeps the room well formed, ended, with the given winners |
| QuizInvariants.EndPayoutWithinPool | contracts/quiz/src/contract.rs:631-690 | when the contract is not the platform wallet, the host or a winner, and no asset prize is in the fee token: a successful end pays out between 0 and the pool, and the contract keeps the rest in the fee token |
| QuizInvariants.ResolvedPlayerHoldsName | contracts/quiz/src/contract.rs:704-718 | the address found for a name is the registered address of the player holding it |
| QuizInvariants.ResolvedWinnersRegistered | contracts/quiz/src/contract.rs:752-770 | every winner chosen by screen name is a registered player |
| QuizInvariants.RequiredNonNegative | contracts/quiz/src/contract.rs:420-431 | the prize total owed in a token is never negative |
| QuizInvariants.PayAssetsWithinRequired | contracts/quiz/src/contract.rs:833-841 | the asset payout takes from the contract, in each token, at most the prizes owed in it |
| QuizInvariants.CoveredPrizesWithinDeposits | contracts/quiz/src/contract.rs:420-431 | after the corrected check, a room's asset payout takes from the contract at most the room's own deposits in each prize token |
| QuizInvariants.RequiredCoversPrize | contracts/quiz/src/contract.rs:420-431 | the total owed in a token is at least each prize in that token |
| QuizInvariants.CorrectedCheckImpliesWritten | contracts/quiz/src/contract.rs:420-431 | the corrected deposit check is at least as strict as the one written |
| QuizInvariants.SharedTokenUnderfunded | contracts/quiz/src/contract.rs:420-431 | two prizes of 10 in one token with 10 deposited pass the written check but fail the corrected one, which needs 20 |
| QuizInvariants.SharedTokenPayoutTakesTwenty | contracts/quiz/src/contract.rs:833-841 | for that room, the asset payout succeeds iff the contract holds at least 20 of the token, and then takes 20, twice what the room deposited |
| QuizContract.StatusShowsEachPrizeCovered | contracts/quiz/src/contract.rs:489-510 | every status row shows its deposit covering its amount iff each prize on its own is covered, as the check written in `start_room` tests |
| QuizContract.StatusListsPrizes | contracts/quiz/src/contract.rs:489-510 | the status has one line per set prize slot (count equal to the set slots), every set slot has its line, and every line is a set slot with the room's total in its token |
| QuizContract.RequiredFor | contracts/quiz/src/contract.rs:420-431 | the loop computes the prizes owed in a token |
| QuizContract.JoinChecks | contracts/quiz/src/contract.rs:555-589 | the checks with the two duplicate-search loops give the same outcome as `JoinCheck` |
| QuizContract.Admit | contracts/quiz/src/contract.rs:539-628 | admitting a player gives exactly the room and balances of `JoinedRoom` |
| QuizContract.Close | contracts/quiz/src/contract.rs:640-690 | ending gives exactly the room and balances of `EndedRoom` |
| QuizContract.PlaceWinners | contracts/quiz/src/contract.rs:662-671 | the pushes build `PlacedWinners` |
| QuizContract.ResolveNames | contracts/quiz/src/contract.rs:752-770 | the lookups build `ResolveWinners` |
| QuizContract.CheckDeposits | contracts/quiz/src/contract.rs:420-431 | the loop decides the corrected deposit check |
| QuizContract.FindPlayer | contracts/quiz/src/contract.rs:704-718 | the search returns the first player holding the name |
| QuizContract.QuizRoomContract.InitPoolRoom | contracts/quiz/src/contract.rs:106-221 | a taken key gives `RoomAlreadyExists`; otherwise the store gains exactly the `PoolRoom` result |
| QuizContract.QuizRoomContract.InitAssetRoom | contracts/quiz/src/contract.rs:223-319 | a taken key gives `RoomAlreadyExists`; otherwise the store gains exactly the `AssetRoom` result |
| QuizContract.QuizRoomContract.AddThirdPrize | contracts/quiz/src/contract.rs:321-362 | unknown room gives `RoomNotFound`; otherwise the room becomes `WithThirdPrize` or stays unchanged on error |
| QuizContract.QuizRoomContract.DepositPrizeAssets | contracts/quiz/src/contract.rs:365-401 | unknown room gives `RoomNotFound`; otherwise the deposit total and balances become `DepositedPrize`'s, or nothing changes |
| QuizContract.QuizRoomContract.StartRoom | contracts/quiz/src/contract.rs:404-444 | unknown room gives `RoomNotFound`; otherwise the room becomes `StartedRoom` (the corrected check) or stays unchanged |
| QuizContract.QuizRoomContract.StartQuiz | contracts/quiz/src/contract.rs:447-486 | unknown room gives `RoomNotFound`; otherwise the room becomes `QuizStartedRoom` or stays unchanged |
| QuizContract.QuizRoomContract.JoinRoom | contracts/quiz/src/contract.rs:539-628 | unknown room gives `RoomNotFound`; otherwise room and balances become `JoinedRoom`'s, or nothing changes |
| QuizContract.QuizRoomContract.Finish | contracts/quiz/src/contract.rs:674-689 | room and balances become `EndedRoom`'s, or nothing changes |
| QuizContract.QuizRoomContract.EndRoom | contracts/quiz/src/contract.rs:631-690 | unknown room gives `RoomNotFound`; otherwise the room ends with `PlacedWinners`, unchecked against the players |
| QuizContract.QuizRoomContract.EndRoomByScreenNames | contracts/quiz/src/contract.rs:721-789 | unknown room gives `RoomNotFound`; otherwise the room ends with `ResolveWinners` |
| QuizContract.QuizRoomContract.AddSponsor | contracts/quiz/src/contract.rs:513-529 | always succeeds and appends the sponsor to the room id's list, whether or not a room exists; every other room id's list is unchanged |
| QuizContract.QuizRoomContract.Sponsors | contracts/quiz/src/contract.rs:532-536 | the stored list for a written key, none for a key never written |
| QuizContract.QuizRoomContract.GetPlayerByScreenName | contracts/quiz/src/contract.rs:704-718 | none for an unknown room; otherwise the first player with the name, who is registered |
| QuizContract.QuizRoomContract.GetAssetDepositStatus | contracts/quiz/src/contract.rs:489-510 | nothing unless the room is an asset room; otherwise one line per set prize with its requirement and deposit |
| QuizContract.QuizRoomContract.RoomFinancialsOf | contracts/quiz/src/contract.rs:893-916 | none for an unknown room; for a stored room, an overflow trap exactly when the fee split overflows, otherwise all five figures: the pool as total collected, the entry and extras fees, the pool as amount to pay out, and a remainder of 0 |
| PausableToken.ErrorCode | contracts/fungible-token-interface/src/contract.rs:30-37 | only `Unauthorized`, `ExceedsMaxMint` and `MintCooldownActive` have contract codes, 1, 2 and 3 respectively |
| PausableToken.Cooldown | contracts/fungible-token-interface/src/contract.rs:96-108 | traps iff the clock is behind the last mint; 0 iff no mint or a full day has passed; otherwise the seconds left, so now + result is the next allowed time |
| PausableToken.MintRejection | contracts/fungible-token-interface/src/contract.rs:55-73 | a public mint passes its checks iff not paused, amount <= cap and a full day since the last mint; the errors come in the contract's order |
| PausableToken.CooldownZeroIffMintAllowed | contracts/fungible-token-interface/src/contract.rs:65-105 | the cooldown getter reports 0 exactly when the mint's cooldown check would pass |
| PausableToken.ScheduleSpacing | contracts/fungible-token-interface/src/contract.rs:61-76 | n successive public mints by one account span at least n-1 days and mint at most n times the cap |
| PausableToken.SchedulePrefix | contracts/fungible-token-interface/src/contract.rs:65-76 | a prefix of a sequence of accepted mints is itself accepted |
| PausableToken.MintRateLimit | contracts/fungible-token-interface/src/contract.rs:61-76 | over any stretch of public mints by one account, total minted * 1 day <= cap * (elapsed time + 1 day) |
| PausableToken.BaseMint | contracts/fungible-token-interface/src/contract.rs:78 | minting succeeds iff the amount is non-negative and supply and balance stay in `i128`; both grow by the amount |
| PausableToken.BaseBurn | contracts/fungible-token-interface/src/contract.rs:180 | burning succeeds iff 0 <= amount <= balance; balance and supply drop by the amount |
| PausableToken.BaseTransfer | contracts/fungible-token-interface/src/contract.rs:166 | succeeds iff 0 <= amount <= balance and the receiver's balance fits; the two balances' sum is kept; others untouched |
| PausableToken.SpendAllowance | contracts/fungible-token-interface/src/contract.rs:171 | succeeds iff 0 <= amount <= allowance, else `LessThanZero` or `InsufficientAllowance`; the allowance drops by the amount; every other approval keeps its value and no other approval appears or disappears |
| PausableToken.Paused | contracts/fungible-token-interface/src/contract.rs:127-138 | pausing succeeds iff the caller is the owner and the token is not paused; a non-owner gets `Unauthorized` |
| PausableToken.Unpaused | contracts/fungible-token-interface/src/contract.rs:140-151 | unpausing succeeds iff the caller is the owner and the token is paused; a non-owner gets `Unauthorized` |
| PausableToken.PauseThenUnpause | contracts/fungible-token-interface/src/contract.rs:127-151 | from unpaused, the owner's pause then unpause restores the flag |
| PausableToken.Token.constructor | contracts/fungible-token-interface/src/contract.rs:41-45 | the owner holds the whole initial supply; unpaused; no allowances or mint times |
| PausableToken.Token.Mint | contracts/fungible-token-interface/src/contract.rs:55-79 | a rejected mint changes nothing; an accepted one records the time and mints as `BaseMint`, or changes nothing if that fails |
| PausableToken.Token.AdminMint | contracts/fungible-token-interface/src/contract.rs:83-92 | refused while paused; otherwise mints as `BaseMint` with no cap or cooldown |
| PausableToken.Token.MintCooldown | contracts/fungible-token-interface/src/contract.rs:96-108 | the account's `Cooldown` at the given time |
| PausableToken.Token.Pause | contracts/fungible-token-interface/src/contract.rs:127-138 | the flag becomes `Paused`'s result, or stays on error |
| PausableToken.Token.Unpause | contracts/fungible-token-interface/src/contract.rs:140-151 | the flag becomes `Unpaused`'s result, or stays on error |
| PausableToken.Token.Transfer | contracts/fungible-token-interface/src/contract.rs:164-167 | refused while paused; otherwise balances become `BaseTransfer`'s or stay |
| PausableToken.Token.TransferFrom | contracts/fungible-token-interface/src/contract.rs:169-172 | refused while paused; otherwise the allowance is spent and the transfer made, both or neither |
| PausableToken.Token.Approve | contracts/fungible-token-interface/src/contract.rs:174-176 | a negative amount gives `LessThanZero`; otherwise the approval is set to the amount, even while paused |
| PausableToken.Token.Burn | contracts/fungible-token-interface/src/contract.rs:178-181 | refused while paused; otherwise balance and supply become `BaseBurn`'s or stay |
| PausableToken.Token.BurnFrom | contracts/fungible-token-interface/src/contract.rs:183-186 | refused while paused; otherwise the allowance is spent and the burn made, both or neither |

## Left out

- Authorisation (`require_auth`) is not modelled. Callers are taken as authorised, and the owner check of `pause`/`unpause` is modelled as a comparison.
- Events, `get_room_config`, `get_room_players` and the wallet getters are left out. They only read stored values.
- The call to `validate_fee_token` is not modelled as a step. It always returns `Ok(())` (`contracts/quiz/src/contract.rs:866-870`), so leaving it out is exact.
- Token metadata (`decimals`, `name`, `symbol`) and the constant getters `get_max_mint_amount` and `get_mint_cooldown_period` are left out. The model uses the constants directly.
- The token's `balance`, `allowance`, `paused` and `total_supply` getters are left out. They read the class fields.
- The ledger clock and ledger sequence are parameters.
- The allowance expiry (`live_until_ledger`) is ignored.
- The internals of the `stellar_tokens` `Base` and `pausable` libraries are not part of this model. They are abstracted as described above.
- The invariant that the total supply equals the sum of all balances is not proved.
- QuizFinance.Payout: the running `total_distributed` is added with unbounded integers, because once each share fits `i128`, their sum is at most the pool.
- PausableToken.Token.constructor: requires a non-negative initial supply, because a negative one makes deployment fail and a constructor cannot return an error.
- QuizContract.QuizRoomContract.StartRoom uses the corrected deposit check (see Findings), not the one written.

## Findings

| source | as written | input that shows it | evidently intended | confidence | as-written member | corrected member |
|---|---|---|---|---|---|---|
| contracts/quiz/src/contract.rs:420-431 | `start_room` compares each prize, on its own, with the room's total deposits in that prize's token | an asset room with first and second prizes of 10 each in token T and 10 of T deposited: the check passes, but paying both winners takes 20 | the deposits in each token cover the sum of all prizes in that token | not executed | QuizInvariants.SharedTokenUnderfunded | QuizInvariants.CoveredPrizesWithinDeposits |
