/**
 * The reference definition of one `processTransactions` cycle of target.js,
 * as functions of the network's answers.
 *
 * The network is an oracle: the n-th call (over the whole cycle) of each kind
 * of request resolves to the n-th answer of that kind. `Calls` counts the calls
 * of each kind made so far, so a run starts where the previous one left off.
 * The random amount sent to recipient j of wallet k is `amounts(k, j)`.
 */
module Dispatch {
  import opened Rpc
  import opened Retrying
  import opened Events

  datatype Network = Network(
    balanceOf: nat -> Outcome<nat>,                 // checkBalance(provider, address)
    gasPrice: nat -> Outcome<nat>,                  // (await provider.getFeeData()).gasPrice
    send: nat -> Outcome<Hash>,                     // wallet.sendTransaction(tx), its hash
    receiptOf: nat -> Outcome<Option<Receipt>>)     // provider.getTransactionReceipt(hash)

  datatype Calls = Calls(balance: nat, fee: nat, send: nat, receipt: nat)

  datatype Run = Run(calls: Calls, log: seq<Event>)

  /** `r`, preceded by the events `done`. */
  function Then(done: seq<Event>, r: Run): Run
  {
    Run(r.calls, done + r.log)
  }

  /** `retry(() => checkBalance(...))` issued when `at` balance queries have been made. */
  function BalanceQuery(net: Network, at: nat): RetryTrace<nat>
  {
    RetryOutcome(net.balanceOf, at, MAX_RETRIES)
  }

  function SendQuery(net: Network, at: nat): RetryTrace<Hash>
  {
    RetryOutcome(net.send, at, MAX_RETRIES)
  }

  function ReceiptQuery(net: Network, at: nat): RetryTrace<Option<Receipt>>
  {
    RetryOutcome(net.receiptOf, at, MAX_RETRIES)
  }

  /**
   * The recipient loop of wallet `k` from recipient `j` on: a turn for
   * recipient `j`, which either breaks out of the loop or continues with
   * recipient `j + 1`.
   */
  function Recipients(net: Network, chain: Chain, k: nat, recipients: seq<Address>, amounts: (nat, nat) -> nat,
                      j: nat, c: Calls): Run
    decreases |recipients| - j, 3
  {
    if j >= |recipients| then Run(c, [])
    else BalanceStage(net, chain, k, recipients, amounts, j, c)
  }

  /**
   * The turn of recipient `j`: re-check the balance; a failed or too-low
   * reading breaks out of the loop, a good one goes on to the gas price.
   */
  function BalanceStage(net: Network, chain: Chain, k: nat, recipients: seq<Address>, amounts: (nat, nat) -> nat,
                        j: nat, c: Calls): Run
    requires j < |recipients|
    decreases |recipients| - j, 2
  {
    var bq := BalanceQuery(net, c.balance);
    var c1 := c.(balance := c.balance + bq.calls);
    var waited := Pauses(bq.sleeps);
    match AsOutcome(bq.result)
    case Err(_) => Run(c1, waited + [BreakWallet(k, BalanceUnavailable)])
    case Ok(balance) =>
      if balance < MIN_RESERVE then Run(c1, waited + [BalanceRead(k, balance)] + [BreakWallet(k, BelowReserve)])
      else PriceStage(net, chain, k, recipients, amounts, j, balance, c1, waited + [BalanceRead(k, balance)] + [Sending(k, j)])
  }

  /**
   * The turn of recipient `j` once the re-read `balance` passed the reserve,
   * `logged` being what the turn has logged so far: fetch the gas price (no
   * retry), skip the recipient if that fails or if the balance does not pay
   * the amount plus 21000 units of gas, otherwise build the transaction and
   * send it.
   */
  function PriceStage(net: Network, chain: Chain, k: nat, recipients: seq<Address>, amounts: (nat, nat) -> nat,
                      j: nat, balance: nat, c: Calls, logged: seq<Event>): Run
    requires j < |recipients|
    decreases |recipients| - j, 1
  {
    var c1 := c.(fee := c.fee + 1);
    match net.gasPrice(c.fee)
    case Err(_) =>
      Then(logged + [SkipRecipient(k, j, FeeUnavailable)], Recipients(net, chain, k, recipients, amounts, j + 1, c1))
    case Ok(price) =>
      var priced := logged + [GasPriceRead(k, price)];
      var amount := amounts(k, j);
      if balance < amount + GAS_LIMIT * price then
        Then(priced + [SkipRecipient(k, j, InsufficientFunds)], Recipients(net, chain, k, recipients, amounts, j + 1, c1))
      else
        SendStage(net, chain, k, recipients, amounts, j, Tx(recipients[j], amount, GAS_LIMIT, price, chain.chainId), c1, priced)
  }

  /**
   * Submit `tx` through the retry wrapper, logging the start of the send; on success settle, poll the receipt
   * through the retry wrapper and log its verdict. Either way the loop goes on
   * with the next recipient.
   */
  function SendStage(net: Network, chain: Chain, k: nat, recipients: seq<Address>, amounts: (nat, nat) -> nat,
                     j: nat, tx: Tx, c: Calls, logged: seq<Event>): Run
    requires j < |recipients|
    decreases |recipients| - j, 0
  {
    var sq := SendQuery(net, c.send);
    var c1 := c.(send := c.send + sq.calls);
    var sending := logged + [SendStarted(k, j, tx)] + Pauses(sq.sleeps);
    match AsOutcome(sq.result)
    case Err(e) =>
      Then(sending + [SkipRecipient(k, j, SendFailed(e))], Recipients(net, chain, k, recipients, amounts, j + 1, c1))
    case Ok(hash) =>
      var rq := ReceiptQuery(net, c1.receipt);
      Then(sending + [Submitted(k, j, tx, hash)] + [Sleep(SETTLE_DELAY)] + Pauses(rq.sleeps)
             + [Classify(hash, AsOutcome(rq.result))],
           Recipients(net, chain, k, recipients, amounts, j + 1, c1.(receipt := c1.receipt + rq.calls)))
  }

  /** Wallet `k`'s turn: the initial balance gate, then the recipient loop. */
  function Wallet(net: Network, chain: Chain, k: nat, recipients: seq<Address>, amounts: (nat, nat) -> nat,
                  c: Calls): Run
  {
    var bq := BalanceQuery(net, c.balance);
    var c1 := c.(balance := c.balance + bq.calls);
    var entered := [Processing(k)] + Pauses(bq.sleeps);
    match AsOutcome(bq.result)
    case Err(_) => Run(c1, entered + [SkipWallet(k, BalanceUnavailable)])
    case Ok(balance) =>
      if balance < MIN_RESERVE then Run(c1, entered + [BalanceRead(k, balance)] + [SkipWallet(k, BelowReserve)])
      else
        var loop := Recipients(net, chain, k, recipients, amounts, 0, c1);
        Run(loop.calls, entered + [BalanceRead(k, balance)] + loop.log + [WalletDone(k)])
  }

  /** Wallets `k`, ..., `n - 1`, one after the other. */
  function Wallets(net: Network, chain: Chain, n: nat, recipients: seq<Address>, amounts: (nat, nat) -> nat,
                   k: nat, c: Calls): Run
    decreases n - k
  {
    if k >= n then Run(c, [])
    else
      var w := Wallet(net, chain, k, recipients, amounts, c);
      Then(w.log, Wallets(net, chain, n, recipients, amounts, k + 1, w.calls))
  }
}
