# evm-auto-tx2 transaction dispatch, in Dafny

This project models the transaction-dispatch core of `target.js`. That core has two parts:

- `retry(fn, maxRetries, delay)` is the bounded retry wrapper.
- `processTransactions(provider, selectedChain, privateKeys, recipientAddresses)` is one cycle of the bot. For every private key in order it:
  - reads the wallet's balance and skips the wallet below a reserve of 0.001 ether (10^15 wei);
  - then, for every recipient in order, re-reads the balance and stops the wallet's loop if that read fails or is too low;
  - fetches the gas price;
  - checks that the balance pays a random amount plus 21000 units of gas;
  - submits the transaction built at target.js:93-99 through `retry` (the model logs the start of that send);
  - waits 15 seconds;
  - polls the receipt through `retry` and reports it as confirmed, reverted, pending, or a receipt error.

The network is an oracle. For each kind of RPC request there is a function from call number to outcome: `checkBalance`, `getFeeData().gasPrice`, `sendTransaction` (its hash) and `getTransactionReceipt`. The n-th call of that kind in a cycle gets the n-th answer. A `Calls` record counts the calls made so far. Quantifying over all oracles covers every sequence of answers the network can give. The random amount for recipient `j` of key `k` is the input `amounts(k, j)`. Sleeps are logged as `Sleep(ms)` events. Console lines are logged as abstract events.

Modules:

- `Rpc` (rpc.dfy): outcomes of a call, either a value or a thrown error.
- `Retrying` (retry.dfy): the retry loop as a method, together with `RetryOutcome`, the run defined by the first successful call.
- `Events` (events.dfy): the constants, the transaction and receipt records, and the event log. It also defines the log's views and the lemmas for them:
  - which keys were visited;
  - which (wallet, recipient) slots got a submission;
  - which recipients got a turn;
  - the *gate*: the balance reading and gas price in force when each send starts, and the send in progress when a submission is reported.
- `Dispatch` (dispatch.dfy): the reference definition of a cycle as functions of the oracle. It is written stage by stage: balance re-check, gas price, send, wallet, and all wallets.
- `Processor` (process.dfy): the nested loop itself, as methods with loops. Each method is proved equal to its stage of `Dispatch`. `ProcessTransactions` also states the cycle's guarantees.
- `Facts` (facts.dfy): the guarantees, proved about `Dispatch`.

A null receipt counts as a successful poll, so `retry` stops after that one call. The log line at target.js:127 says "still pending after several attempts", but the model follows the code.

## Model

| member | source | states |
|---|---|---|
| Retrying.FirstSuccess | target.js:18-22 | the number of failed attempts before the first success among the next `n` calls is at most `n`; every call before it fails; if it is below `n`, that call succeeds |
| Retrying.RetryOutcome | target.js:17-27 | with `maxRetries <= 0` nothing is called and `undefined` comes back. Otherwise 1 to `maxRetries` calls are made, with one sleep fewer than calls, and every call but the last fails. The last call's value is returned; if no call succeeds, exactly `maxRetries` calls are made and the last error is rethrown unchanged |
| Retrying.Retry | target.js:17-27 | the counted loop returns exactly the result, call count and sleep count of `RetryOutcome` |
| Retrying.AsOutcome | target.js:20-22 | to the caller's `await`, a wrapper that made an attempt succeeds exactly when it returned a value, and then yields that value; otherwise it throws the rethrown error |
| Events.Classify | target.js:118-130 | the receipt verdict for a hash: confirmed exactly when a receipt came back with status 1, pending exactly when the poll returned no receipt, a receipt error carrying the thrown error exactly when the poll threw, and reverted otherwise |
| Retrying.RetryReturnsFirstSuccess | target.js:18-20 | `k` failures followed by a success: that success is returned after exactly `k + 1` calls and `k` sleeps |
| Retrying.RetryRethrowsLastError | target.js:18-24 | all attempts fail: exactly `maxRetries` calls and `maxRetries - 1` sleeps are made, and the last attempt's error is rethrown |
| Processor.Turn | target.js:59-72 | one pass of the recipient loop equals `Dispatch.BalanceStage` (with `PriceStage` and `SendStage` after it). It breaks on a failed or low balance re-check. Otherwise it continues with the next recipient and the updated call counters |
| Processor.Price | target.js:74-99 | after a good re-check: fetch the gas price once and skip on failure; skip if the balance is below amount plus 21000 times the price; otherwise build the transaction and send it. It equals `Dispatch.PriceStage` |
| Processor.Send | target.js:101-131 | submit through `retry` and skip the recipient on failure; on success, sleep 15 s, poll the receipt through `retry` and log the verdict. It equals `Dispatch.SendStage` |
| Processor.Sweep | target.js:59-132 | the recipient loop, run in list order until a turn breaks, equals `Dispatch.Recipients` from recipient 0 |
| Processor.Visit | target.js:31-135 | a key's turn equals `Dispatch.Wallet`: the initial balance gate (`continue` to the next key on failure or below the reserve), then the recipient loop and the closing line |
| Processor.ProcessTransactions | target.js:30-136 | equals `Dispatch.Wallets` from key 0. Every key is visited once, in key order. Submissions fall within the key and recipient lists, come in (key, recipient) order, and no pair gets two. Each send and each submitted transaction is the one built for its recipient. Each send, whether it later succeeds or fails, is gated by a balance reading of its own wallet and a gas price fetched since the previous send; the reading is at least the reserve and covers value plus gas at the transaction's gas price, which is that fetched price. Each submission reports the send started just before it. The gas-price answers the log reports are exactly the answers of the `getFeeData` calls made, in call order |
| Facts.BalanceTurn | target.js:61-103 | a turn breaks out of the loop exactly when the re-check fails or reads below the reserve. A turn that breaks has made only the balance query; any other turn makes exactly one gas-price call. It makes send calls exactly when the re-check passes, the gas price is fetched and the transfer is affordable, and none otherwise. It makes receipt calls and submits exactly when in addition a send attempt succeeds. Its own log is gated and logs no wallet start or end. A turn that gets past the re-check reports the answer of its gas-price call, and its send and submitted transaction carry that price; a turn that breaks reports no gas price and sends nothing |
| Facts.PriceTurn | target.js:79-103 | after a good re-check the turn never breaks and makes one gas-price call. A failed fetch or an unaffordable transfer makes no send call and no receipt call. Otherwise it makes the send calls of one retried send. It submits exactly when the gas price is fetched, the balance pays amount plus 21000 units of gas, and a send attempt succeeds. The turn reports the fetch's answer (the price, or a failed fetch) once, and its send and submitted transaction carry that price as their `gasPrice` |
| Facts.SendTurn | target.js:101-131 | the send stage makes the calls of one retried send, and the calls of one retried receipt poll only after a successful send. It submits exactly when a send attempt succeeds, with the transaction built for the recipient at the fetched gas price, and then logs the receipt verdict as its last event. Whatever the send or the poll did, the loop goes on with the next recipient |
| Facts.RecipientsFacts | target.js:59-132 | from recipient `j`, the loop gives turns to `j, j+1, ...` in list order. It ends with a break exactly when it did not reach the end of the list, and a break can only be the last event. Submissions belong to this key, in recipient order. Every submission is well built and gated |
| Facts.RecheckDecides | target.js:61-131 | for recipient `j`, the loop ends at `j` exactly when the re-read balance is unavailable or below the reserve; then it has made only that query and submitted nothing. Otherwise the rest of the loop runs from recipient `j + 1`, after one gas-price call, send calls only if the transfer is priced and affordable, and receipt calls only if the send succeeded. A transaction goes to `j` exactly when the re-check passes, the price is fetched, the transfer is affordable and the send succeeds. Turn `j`'s own events report the answer of its one gas-price call, and any send in them carries that price |
| Facts.PollSettles | target.js:117-128 | the first receipt poll that does not throw decides the verdict: null means pending, status 1 means confirmed, any other status means reverted |
| Facts.PollFails | target.js:117-131 | if all five receipt polls throw, the verdict is a receipt error carrying the last poll's error |
| Facts.WalletGate | target.js:40-56 | a key whose first balance query fails or reads below the reserve is skipped. It has made only that query, given no recipient a turn and submitted nothing, and its last event is the matching skip. Any other key ends with the closing event, and its turns, submissions and call counters are those of its recipient loop |
| Facts.WalletTurnFacts | target.js:31-134 | a key's log visits only that key. Its submissions belong to it, name listed recipients, come in recipient order, and are well built and gated |
| Facts.RecipientsQuotes | target.js:59-132 | from recipient `j`, the gas-price answers the loop reports (target.js:79-84) are exactly those of the gas-price calls it made, in call order |
| Facts.WalletQuotes | target.js:31-134 | a key's turn reports exactly the answers of the gas-price calls it made, in call order. A skipped key reports none, and any other key reports exactly the quotes of its recipient loop |
| Facts.WalletsQuotes | target.js:31-135 | keys `k` to `n - 1` report exactly the answers of the gas-price calls they made, in call order |
| Facts.WalletsFacts | target.js:31-135 | keys `k` to `n - 1` are each visited once, in order, whatever happened to earlier keys. Their submissions fall in range, come in lexicographic order, and are well built and gated |

## Left out

- `main` (target.js:138-182) is not modelled: the 24-hour `setTimeout` with `process.exit`, the endless cycle loop with its sleeps, and the top-level `catch`. It is timer and process control.
- Reading `privateKeys.json` and `addresses.json` is file I/O. The keys and addresses are inputs.
- `checkBalance`, `sleep`, `displayHeader` and the chain-selection helpers live in `src/`, which is not part of this model. `checkBalance` is the balance oracle, and `sleep` is a `Sleep` event.
- The ethers objects are not modelled. This covers wallet derivation from a key, signing, the provider and `formatUnits`; only the results of the four RPC requests are modelled. A key is used only for its position in the list.
- The random amount (target.js:74-77) uses floating-point `Math.random` and `toFixed`. It is the input `amounts(k, j)`, with no bound assumed.
- `new ethers.Wallet(privateKey, provider)` (target.js:32) is outside any `try`: a key that ethers rejects makes `processTransactions` reject, and the remaining keys of that cycle are not processed. The model takes every key to be accepted. The guarantee that every key gets its turn, in key order, holds only under that assumption.
- A null `gasPrice` would throw a TypeError at target.js:87, outside any `try`. The gas price is a natural number, so that escape is not modelled.
- Console output and colours are not modelled as text. Each line is at most an abstract event. The three header lines of a wallet (target.js:35-37) together are one `Processing` event. The retry warning (target.js:23) has no event of its own; only the `Sleep` after it is logged. The log also records the re-read balance (`BalanceRead`) and the fetched gas price (`GasPriceRead`) and the start of each send (`SendStarted`), which the source does not print, so that the gate can be stated on the log.
- `parseInt(selectedChain.chainId)` is not modelled; the chain id is already an integer.
- `retry`'s `delay` parameter is not modelled: every call site uses the default of 5000 ms, which is the constant `RETRY_DELAY`.
- The receipt status is an integer, so a receipt whose `status` is null is not modelled. The source would report such a receipt as failed, like any status other than 1.
- `maxRetries` is an integer in the model. In JavaScript it is a Number, and a fractional value would never equal `maxRetries - 1`, so `retry` would sleep after its last failure and return `undefined`. No call site passes one.
- Retrying.AsOutcome: requires that an attempt was made. `processTransactions` always uses 5 attempts, so the `undefined` result of `retry` never reaches it.
