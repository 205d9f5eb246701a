# Coin-flip ledger and round escrow

A model of two SmartPy contracts, with proofs about the model:

- the balance ledger `CoinFlip` (main.py). It holds a map from player address to a balance in mutez and the aggregate `total_players_balance`. It also holds the owner, oracle and escrow configuration.
- the round escrow `Escrow` (escrow.py). It holds one round: the player's stake and prediction, the counter-stake of the main contract, a randomness-request flag and the received random value. It pays out through the fee-adjusted rule `_compute_refund`.

Each contract is a class whose fields are its storage. Each entry point is a method. The method takes the environment (`sp.sender`, `sp.amount`, `sp.balance`) as parameters and returns `Pass` or `Fail(error)`. A failure leaves the whole object unchanged, as a failed `sp.verify` does. Outgoing transfers and calls are not run. They are appended to an `emitted` sequence of `Operation` records, so a contract can say "exactly one send of X".

Files:
- `tezos.dfy` holds the shared types: addresses, options, outcomes and operations.
- `coinflip.dfy` holds the ledger. It also has the sum over the balance map and the lemmas about that sum.
- `escrow.dfy` holds the escrow and `_compute_refund`.
- `scenarios.dfy` holds client methods. They replay the source's tests and one full round across both contracts.

Main results:
- Ledger, `Balanced()` (the sum of all balances equals `total_players_balance`): `deposit`, the corrected `withdraw`, `bet` and `finish_game` preserve it. `add_player` preserves it exactly when the address had no balance before. `withdraw` as written breaks it on every successful call (see "## Findings").
- Ledger, `Covered()` (the sum is at most the aggregate): every entry point preserves it, `add_player` included. Under `Covered()`, the subtractions at main.py:45 and main.py:77 never fail. In Michelson, a mutez subtraction below zero aborts the operation, and the model represents that case as `MutezUnderflow`.
- Escrow, `Consistent()`: the prediction is set exactly when the player has staked. A request is outstanding exactly when both stakes are positive. No random value survives past the step that received it. Every entry point preserves this. Under it, `receive_randomness` always succeeds when a request is outstanding, and `perform_payout` on its own is a no-op.
- `_compute_refund` is characterised without division. The escrow keeps between 2% of the counter-stake and 2% plus one mutez on a win, and both stakes on a loss.

## Model

| member | source | states |
|---|---|---|
| `CoinFlipContract.SumRemove` | main.py:7-12 | the sum of the balance map is any one entry plus the sum of the rest (proved by induction) |
| `CoinFlipContract.SumUpdate` | main.py:7-12 | writing balance `v` at an address changes the sum of balances by `v` minus the entry it replaces (0 if absent) |
| `CoinFlipContract.SumBound` | main.py:7-12 | no registered balance exceeds the sum of all balances |
| `CoinFlipContract.MaxBet` | main.py:73-74 | the bet ceiling is the largest `limit` with `50 * limit` at most the reported contract balance (2%, rounded down) |
| `CoinFlipContract.CoinFlip.constructor` | main.py:5-13 | the ledger starts with no players, no escrow, aggregate 0, the given owner and oracle, and is balanced |
| `CoinFlipContract.CoinFlip.GetBalance` | main.py:141-147 | a registered address's stored balance, 0 for any other; whenever the aggregate covers the balances, the result is at most the aggregate |
| `CoinFlipContract.CoinFlip.AddPlayer` | main.py:22-25 | overwrites the entry and adds the amount to the aggregate; keeps `Covered`; keeps `Balanced` if and only if the address had no balance before |
| `CoinFlipContract.CoinFlip.Deposit` | main.py:28-36 | refused, with no change, exactly when the amount is 0; otherwise the sender's balance (0 if unregistered) and the aggregate rise by exactly the amount, every other address is untouched, and both invariants are kept |
| `CoinFlipContract.ZeroingLowersSum` | main.py:43-45 | zeroing a positive balance lowers the sum of balances by exactly that balance, so an unchanged aggregate no longer equals the sum |
| `CoinFlipContract.CoinFlip.Withdraw` | main.py:39-46 | (the corrected withdrawal) refused if the sender is unregistered or has balance 0; otherwise zeroes the balance, lowers the aggregate by the balance read before zeroing and emits exactly one send of it to the sender; keeps `Balanced` and `Covered`; under `Covered` the subtraction never underflows |
| `CoinFlipContract.CoinFlip.WithdrawAsWritten` | main.py:39-46 | (the withdrawal as written) refused in the same two cases; otherwise zeroes the balance, leaves the aggregate as it was and emits one send of 0 to the sender; breaks `Balanced` on every successful call and keeps `Covered` |
| `CoinFlipContract.CoinFlip.SetEscrow` | main.py:50-59 | succeeds exactly for the owner when the escrow entry point is found, and then stores the escrow and changes nothing else |
| `CoinFlipContract.CoinFlip.SetOracle` | main.py:63-66 | refused with no change for every sender but the owner; otherwise replaces only the oracle |
| `CoinFlipContract.CoinFlip.Bet` | main.py:69-80 | refused, in source order, unless the sender is registered, has balance at least the amount, the amount is at most `MaxBet` of the reported balance, and an escrow is set; on success debits exactly the amount from the sender and the aggregate and emits one zero-mutez call `(player, amount, prediction)` to the escrow; under `Covered` the subtraction never underflows |
| `CoinFlipContract.CoinFlip.OwnerWithdraw` | main.py:82-91 | succeeds exactly for the owner with a positive amount and `amount + total_players_balance` at most the contract balance; then emits one send and changes no storage |
| `CoinFlipContract.CoinFlip.FinishGame` | main.py:157-162 | succeeds exactly when the sender is the stored oracle and the player is registered; then credits the refund to that player and to the aggregate, keeping both invariants |
| `EscrowContract.ComputeRefund` | escrow.py:43-47 | 0 unless the prediction equals "the value is even"; on a win, at least the player's stake and at most both stakes, with the player's share of the counter-stake the largest amount at most 98% of it |
| `EscrowContract.RetainedFee` | escrow.py:45 | on a win the escrow keeps at least 2% of the counter-stake and less than 2% plus one mutez; on a loss it keeps both stakes |
| `EscrowContract.OnlyParityMatters` | escrow.py:44 | the refund depends on the random value only through its parity |
| `EscrowContract.ExactlyOnePredictionPaid` | escrow.py:44-47 | once the player has staked, for every random value exactly one of the two predictions receives a positive refund |
| `EscrowContract.ComputeRefundAsWritten` | escrow.py:43-47 | the refund the helper's text builds: the player's stake plus 98% of the counter-stake (rounded down), whatever the prediction and the value |
| `EscrowContract.AsWrittenPaysLosingRound` | escrow.py:89-106 | in the test round (stakes 50 and 50, prediction `true`, odd value 123456789) the as-written refund is 99 and the conditional refund is 0 |
| `EscrowContract.AsWrittenIgnoresOutcome` | escrow.py:43-47 | for every losing round with a staked player, the as-written refund is positive and the conditional refund is 0 |
| `EscrowContract.Escrow.constructor` | escrow.py:5-16 | the escrow starts with no player, an empty round, nothing requested and nothing emitted |
| `EscrowContract.Escrow.PlaceBet` | escrow.py:19-41 | refused with no change when the player is unset, the amount is 0, or the sender is neither the player nor the main contract; the player overwrites stake and prediction, the main contract (when it is not the player) only the counter-stake; when both stakes are then positive, the random value is cleared, the flag set and exactly one request emitted, otherwise flag and value are unchanged; keeps `Consistent` |
| `EscrowContract.Escrow.PerformPayout` | escrow.py:49-61 | a no-op when no random value is present; otherwise emits exactly one `finish_game(player, refund)` call to the main contract with the refund of `ComputeRefund`, resets stakes, prediction and value, and leaves player and flag alone; under `Consistent` it is always a no-op |
| `EscrowContract.Escrow.ReceiveRandomness` | escrow.py:63-68 | refused with no change when no request is outstanding, or when the payout's `open_some` on the player or prediction fails; otherwise emits the payout for the received value and leaves the round empty with the flag cleared; under `Consistent` an outstanding request always succeeds |
| `EscrowContract.Escrow.SetPlayer` | escrow.py:70-74 | succeeds exactly for the main contract with a valid address, and then stores it as the player and changes nothing else |
| `Scenarios.LedgerFundsScenario` | main.py:175-191 | after deposits of 1000 and 2000 and the first player's withdrawal through the corrected `Withdraw`, the balances are 0 and 2000, the aggregate is 2000, one send of 1000 is emitted, and the ledger is balanced |
| `Scenarios.WithdrawAsWrittenScenario` | main.py:175-185 | the same deposits and withdrawal through `WithdrawAsWritten` leave balances 0 and 2000 with the aggregate still 3000 and one send of 0, so the ledger is not balanced |
| `Scenarios.LedgerBetScenario` | main.py:193-245 | the rest of the ledger test (the bet of main.py:219 given 3000 as the contract balance) ends with balances 1010 and 2000, with exactly one withdrawal send and one forwarded bet emitted |
| `Scenarios.EscrowTestScenario` | escrow.py:76-129 | the escrow test emits the randomness request three times and a single zero refund for the odd value 123456789; the two late `receive_randomness` calls are both refused because no request is outstanding |
| `Scenarios.ForwardedBetScenario` | main.py:79-80 | the call `bet` forwards carries 0 mutez, so the escrow refuses it as a zero bet |
| `Scenarios.RoundPayoutScenario` | escrow.py:19-68 | with stakes 50 (on "even") and 1000, a received random value yields exactly one payout call to the ledger carrying `ComputeRefund` of the stakes |
| `Scenarios.RoundScenario` | main.py:157-162 | when that payout call is delivered to the ledger, the player's balance ends at 1980 for every even random value and 950 for every odd one |

## Left out

- Mutez is modelled as an unbounded natural number. The upper bound 2^63 - 1, past which a Michelson addition or `contract_bet * 98` aborts, is not modelled. Only the lower bound (subtraction below zero) is.
- `sp.send` and `sp.transfer` do not run; they are recorded in `emitted`. The order in which the chain would run them, reentrancy, and atomicity across the two contracts are not modelled. Each entry point is one isolated step.
- The Chainlink request (`sp.chainlink.build_request`) is recorded by its arguments only: spec id `coin_flip`, callback address and entry point, and the 1000 attached. How the request is built is not modelled.
- The escrow entry-point lookup of `set_escrow` (`sp.contract`) becomes a boolean parameter `entryPointFound`. The source looks up an entry point literally named `entry_point_name` (main.py:56), which escrow.py does not define, so against the real escrow the lookup fails and `set_escrow` always refuses. The scenarios that set an escrow (`LedgerBetScenario`, `ForwardedBetScenario`, `RoundScenario`) pass `true` and so show deliveries that cannot happen as written. `sp.is_valid_address` in `set_player` becomes a boolean parameter `addressIsValid`. The `sp.is_address` check in the escrow's `__init__` is not modelled.
- The contract's own balance (`sp.balance`) is not tracked. `owner_withdraw` receives it as a parameter, and `bet` receives the caller-reported balance as the source does.
- Two source lines are modelled by what they evidently mean, not as written. `place_bet` stores `params.prediction`, a bare boolean, into `player_prediction` (escrow.py:28), a field that starts as `sp.none` and is later opened with `open_some()`; `EscrowContract.Escrow.PlaceBet` stores `Some(prediction)`. `bet` applies `sp.as_nat` to a mutez value (main.py:73); `CoinFlipContract.MaxBet` divides the natural-number balance by 50, rounding down.
- `get_balance` is declared with `@sp.utils.view` (main.py:141), which makes it an entry point that takes a callback contract and transfers the result to it. `GetBalance` is a pure function of the storage; the callback operation it would emit is not recorded.
- Whether the chain accepts a send of 0 mutez, as `WithdrawAsWritten` emits, is not modelled.
- `perform_payout` called from `receive_randomness` runs inline, in the same step.
- The ledger's `link_token` and the escrow's `oracle` are stored by the source but never read. The escrow keeps `oracle` as a constant; the ledger drops `link_token`.
- The test bets at main.py:209 and main.py:219 pass `player_balance` before main.py:231 assigns it. The bet at main.py:209 is not replayed. For the bet at main.py:219, `LedgerBetScenario` passes 3000, the contract's own balance at that point, in place of the undefined value. The call of `_compute_refund` outside a contract at escrow.py:106 is not replayed. The commented-out views at main.py:93-139 and main.py:151-154 are dead code.

## Code and intent disagree

Where the code does not do what its own names, comments and tests evidently intend, the model follows the code, with two exceptions, `_compute_refund` and `withdraw`. Each has an as-written member beside the corrected one the rest of the model uses (see "## Findings").
- `receive_randomness` has no caller check. Only the oracle should be able to deliver randomness (the test at escrow.py:128-129 calls it from the player and expects a refusal). In that test the call is refused anyway, because the flag was cleared at escrow.py:102; the model likewise refuses it with `RandomValueNotRequested`. While a request is outstanding, the model, like the code, accepts the value from any caller.
- `place_bet` emits a new randomness request on every call that leaves both stakes positive, so one round can request randomness several times, although a single flag `random_value_requested` tracks one outstanding request. `EscrowTestScenario` shows three requests for one round.
- `owner_withdraw` accepts a contract balance exactly equal to `amount + total_players_balance`, so the owner can withdraw down to the last mutez owed to players.
- `finish_game` accepts only the stored oracle as sender. The escrow's payout call comes from the escrow, so a round is credited only when the oracle is set to the escrow's address. `RoundScenario` sets it so.
- `bet` forwards the stake with 0 mutez attached, and `place_bet` refuses a zero amount (`ForwardedBetScenario`). Even with the stake attached, the call would arrive with the ledger, which is the escrow's `main_contract`, as sender, so the stake would land in `contract_bet` with no prediction (escrow.py:26-30). The forwarded record also carries `player` and `amount` fields that `place_bet`'s parameter (escrow.py:20) does not take. `RoundPayoutScenario` therefore has the player stake at the escrow directly.

## Findings

| source | as written | input that shows it | evidently intended | confidence | as-written member | corrected member |
|---|---|---|---|---|---|---|
| main.py:43-46 | `amount = self.data.players[sp.sender]` names the storage entry, not a copy of its value (a copy would need `sp.local`); main.py:44 zeroes the entry first, so main.py:45 subtracts 0 and main.py:46 sends 0 | a registered player with balance 1000, aggregate 3000, withdraws: the entry becomes 0, the aggregate stays 3000 and `Send(player, 0)` is emitted; the 1000 stays in the contract, still counted in the aggregate, so neither the player nor the owner can withdraw it | pay out the balance read before zeroing it and deduct it from the aggregate (the comment at main.py:38 and the check at main.py:42 that there is a positive balance to pay out) | medium; read from SmartPy's build-time semantics, not executed; the test at main.py:184-185 checks only the zeroed entry, so it does not tell the two readings apart | `CoinFlipContract.CoinFlip.WithdrawAsWritten` (`CoinFlipContract.ZeroingLowersSum`, `Scenarios.WithdrawAsWrittenScenario`) | `CoinFlipContract.CoinFlip.Withdraw` |
| escrow.py:43-47 | the helper returns from inside `with sp.if_`; SmartPy runs the helper's body once while building the contract, so the first `return` always ends it, the `sp.else` branch is never built, and every payout is `player_bet + contract_bet * 98 // 100` | stakes 50 and 50, prediction `true`, random value 123456789 (the test round of escrow.py:89-102): pays 99 | pay only when the prediction matches the parity of the value, otherwise 0 (the comment at escrow.py:100-105 and the loss branch at escrow.py:46-47) | medium; read from SmartPy's build-time semantics, not executed | `EscrowContract.ComputeRefundAsWritten` (`EscrowContract.AsWrittenPaysLosingRound`, `EscrowContract.AsWrittenIgnoresOutcome`) | `EscrowContract.ComputeRefund` |

`PerformPayout`, `ReceiveRandomness` and the scenarios use the conditional `ComputeRefund`. All scenarios but `WithdrawAsWrittenScenario` use the corrected `Withdraw`.
