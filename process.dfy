/**
 * `processTransactions(provider, selectedChain, privateKeys, recipientAddresses)`
 * of target.js as the nested loop it is: keys in order, recipients in order,
 * every RPC call made through `Retry` except the single gas-price call, and an
 * event log appended as the source prints.
 *
 * The body of the recipient loop is the method `Turn`; where the source says
 * `continue` the turn returns with `broke == false`, where it says `break` it
 * returns with `broke == true` and the loop breaks.
 */
module Processor {
  import opened Rpc
  import opened Retrying
  import opened Events
  import opened Dispatch
  import opened Facts

  /**
   * One pass of the recipient loop, for recipient `j` of wallet `k`. Where the
   * source says `break` the pass returns with `broke`; where it says `continue`
   * or reaches the end of the body, it returns without.
   */
  method Turn(net: Network, chain: Chain, k: nat, recipients: seq<Address>, amounts: (nat, nat) -> nat, j: nat, c: Calls)
    returns (logged: seq<Event>, calls: Calls, broke: bool)
    requires j < |recipients|
    ensures BalanceStage(net, chain, k, recipients, amounts, j, c)
            == if broke then Run(calls, logged) else Then(logged, Recipients(net, chain, k, recipients, amounts, j + 1, calls))
  {
    // Re-check the balance before every send.
    var balanceResult, balanceCalls, balanceSleeps := Retry(net.balanceOf, c.balance, MAX_RETRIES);
    assert BalanceQuery(net, c.balance) == RetryTrace(balanceResult, balanceCalls, balanceSleeps);
    calls := c.(balance := c.balance + balanceCalls);
    logged := Pauses(balanceSleeps);
    if balanceResult.Rethrown? {
      logged := logged + [BreakWallet(k, BalanceUnavailable)];
      return logged, calls, true;
    }
    var senderBalance := balanceResult.value;
    logged := logged + [BalanceRead(k, senderBalance)];
    if senderBalance < MIN_RESERVE {
      logged := logged + [BreakWallet(k, BelowReserve)];
      return logged, calls, true;
    }
    logged := logged + [Sending(k, j)];
    logged, calls := Price(net, chain, k, recipients, amounts, j, senderBalance, calls, logged);
    broke := false;
  }

  /** The pass after the balance check succeeded: the gas price, the cost check, then the send. */
  method Price(net: Network, chain: Chain, k: nat, recipients: seq<Address>, amounts: (nat, nat) -> nat, j: nat,
               senderBalance: nat, c: Calls, logged0: seq<Event>)
    returns (logged: seq<Event>, calls: Calls)
    requires j < |recipients|
    ensures PriceStage(net, chain, k, recipients, amounts, j, senderBalance, c, logged0)
            == Then(logged, Recipients(net, chain, k, recipients, amounts, j + 1, calls))
  {
    var receiverAddress, amountToSend := recipients[j], amounts(k, j);
    // Fetch the gas price once; a failure skips this recipient.
    var feeData := net.gasPrice(c.fee);
    calls := c.(fee := c.fee + 1);
    if feeData.Err? {
      logged := logged0 + [SkipRecipient(k, j, FeeUnavailable)];
      return;
    }
    var gasPrice := feeData.value;
    logged := logged0 + [GasPriceRead(k, gasPrice)];

    var txCost := GAS_LIMIT * gasPrice;
    if senderBalance < amountToSend + txCost {
      logged := logged + [SkipRecipient(k, j, InsufficientFunds)];
      return;
    }

    var transaction := Tx(receiverAddress, amountToSend, GAS_LIMIT, gasPrice, chain.chainId);
    logged, calls := Send(net, chain, k, recipients, amounts, j, transaction, calls, logged);
  }

  /** Submit `transaction`, settle, poll its receipt and log the verdict. */
  method Send(net: Network, chain: Chain, k: nat, recipients: seq<Address>, amounts: (nat, nat) -> nat, j: nat,
              transaction: Tx, c: Calls, logged0: seq<Event>)
    returns (logged: seq<Event>, calls: Calls)
    requires j < |recipients|
    ensures SendStage(net, chain, k, recipients, amounts, j, transaction, c, logged0)
            == Then(logged, Recipients(net, chain, k, recipients, amounts, j + 1, calls))
  {
    logged := logged0 + [SendStarted(k, j, transaction)];
    var sent, sendCalls, sendSleeps := Retry(net.send, c.send, MAX_RETRIES);
    assert SendQuery(net, c.send) == RetryTrace(sent, sendCalls, sendSleeps);
    calls := c.(send := c.send + sendCalls);
    logged := logged + Pauses(sendSleeps);
    if sent.Rethrown? {
      logged := logged + [SkipRecipient(k, j, SendFailed(sent.error))];
      return;
    }
    var hash := sent.value;
    logged := logged + [Submitted(k, j, transaction, hash)];

    logged := logged + [Sleep(SETTLE_DELAY)];  // sleep(15000)

    var receipt, receiptCalls, receiptSleeps := Retry(net.receiptOf, calls.receipt, MAX_RETRIES);
    assert ReceiptQuery(net, calls.receipt) == RetryTrace(receipt, receiptCalls, receiptSleeps);
    calls := calls.(receipt := calls.receipt + receiptCalls);
    logged := logged + Pauses(receiptSleeps);
    assert SendStage(net, chain, k, recipients, amounts, j, transaction, c, logged0)
           == Then(logged + [Classify(hash, AsOutcome(receipt))], Recipients(net, chain, k, recipients, amounts, j + 1, calls));
    var verdict;
    if receipt.Rethrown? {
      verdict := ReceiptError(hash, receipt.error);
    } else if receipt.value.Some? {
      if receipt.value.value.status == 1 {
        verdict := Confirmed(hash);
      } else {
        verdict := Reverted(hash);
      }
    } else {
      verdict := Pending(hash);
    }
    assert verdict == Classify(hash, AsOutcome(receipt));
    logged := logged + [verdict];
  }

  /** The turn of wallet `k`: the initial balance gate, then the recipient loop. */
  method Visit(net: Network, chain: Chain, k: nat, recipients: seq<Address>, amounts: (nat, nat) -> nat, c: Calls)
    returns (logged: seq<Event>, calls: Calls)
    ensures Run(calls, logged) == Wallet(net, chain, k, recipients, amounts, c)
  {
    logged := [Processing(k)];

    var balanceResult, balanceCalls, balanceSleeps := Retry(net.balanceOf, c.balance, MAX_RETRIES);
    assert BalanceQuery(net, c.balance) == RetryTrace(balanceResult, balanceCalls, balanceSleeps);
    calls := c.(balance := c.balance + balanceCalls);
    logged := logged + Pauses(balanceSleeps);
    if balanceResult.Rethrown? {
      logged := logged + [SkipWallet(k, BalanceUnavailable)];
      return;  // continue
    }
    var senderBalance := balanceResult.value;
    logged := logged + [BalanceRead(k, senderBalance)];
    if senderBalance < MIN_RESERVE {
      logged := logged + [SkipWallet(k, BelowReserve)];
      return;  // continue
    }

    var swept;
    swept, calls := Sweep(net, chain, k, recipients, amounts, calls);
    logged := logged + swept + [WalletDone(k)];
  }

  /** The recipient loop of wallet `k`: a turn per recipient, in order, until one breaks. */
  method Sweep(net: Network, chain: Chain, k: nat, recipients: seq<Address>, amounts: (nat, nat) -> nat, c: Calls)
    returns (logged: seq<Event>, calls: Calls)
    ensures Run(calls, logged) == Recipients(net, chain, k, recipients, amounts, 0, c)
  {
    logged, calls := [], c;
    var j := 0;
    while j < |recipients|
      invariant j <= |recipients|
      invariant Recipients(net, chain, k, recipients, amounts, 0, c)
                == Then(logged, Recipients(net, chain, k, recipients, amounts, j, calls))
    {
      var turn, broke;
      turn, calls, broke := Turn(net, chain, k, recipients, amounts, j, calls);
      if broke {
        logged := logged + turn;
        break;
      }
      ThenThen(logged, turn, Recipients(net, chain, k, recipients, amounts, j + 1, calls));
      logged := logged + turn;
      j := j + 1;
    }
  }

  /** One unfolding of the wallet loop at wallet `k`. */
  lemma WalletsUnfold(net: Network, chain: Chain, n: nat, recipients: seq<Address>, amounts: (nat, nat) -> nat,
                      k: nat, c: Calls)
    requires k < n
    ensures var w := Wallet(net, chain, k, recipients, amounts, c);
      Wallets(net, chain, n, recipients, amounts, k, c) == Then(w.log, Wallets(net, chain, n, recipients, amounts, k + 1, w.calls))
  {
  }

  lemma ThenThen(a: seq<Event>, b: seq<Event>, r: Run)
    ensures Then(a, Then(b, r)) == Then(a + b, r)
  {
    assert a + (b + r.log) == a + b + r.log;
  }

  /**
   * `processTransactions`: every key in order gets its turn, whatever the
   * network answered for the previous ones. Each key is visited exactly once,
   * in order; no (wallet, recipient) pair gets two submissions and submissions
   * come in key order, then recipient order; every send and every submitted
   * transaction is the one built for its recipient; every send is preceded,
   * since the previous send, by a balance reading of its own wallet that
   * covers the reserve and the value plus gas at the gas price fetched for it,
   * which is the transaction's own gas price; every submission reports the send
   * started just before it; and the gas prices the log reports are exactly the
   * answers of the gas-price calls made, in call order.
   */
  method ProcessTransactions(net: Network, chain: Chain, privateKeys: seq<PrivateKey>, recipients: seq<Address>,
                             amounts: (nat, nat) -> nat, start: Calls)
    returns (log: seq<Event>, calls: Calls)
    ensures Run(calls, log) == Wallets(net, chain, |privateKeys|, recipients, amounts, 0, start)
    ensures Visited(log) == Range(0, |privateKeys|)
    ensures forall x | x in Submissions(log) :: x.wallet < |privateKeys| && x.recipient < |recipients|
    ensures Ordered(Submissions(log))
    ensures forall i, i' | 0 <= i < i' < |Submissions(log)| :: Submissions(log)[i] != Submissions(log)[i']
    ensures forall e | e in log :: WellBuilt(chain, recipients, amounts, e)
    ensures Gated(Closed, log)
    ensures start.fee <= calls.fee && Quotes(log) == FeeAnswers(net.gasPrice, start.fee, calls.fee)
  {
    log, calls := [], start;
    var k := 0;
    while k < |privateKeys|
      invariant k <= |privateKeys|
      invariant Wallets(net, chain, |privateKeys|, recipients, amounts, 0, start)
                == Then(log, Wallets(net, chain, |privateKeys|, recipients, amounts, k, calls))
    {
      ghost var before := calls;
      var logged;
      logged, calls := Visit(net, chain, k, recipients, amounts, calls);
      WalletsUnfold(net, chain, |privateKeys|, recipients, amounts, k, before);
      ThenThen(log, logged, Wallets(net, chain, |privateKeys|, recipients, amounts, k + 1, calls));
      log := log + logged;
      k := k + 1;
    }
    WalletsFacts(net, chain, |privateKeys|, recipients, amounts, 0, start, Closed);
    WalletsQuotes(net, chain, |privateKeys|, recipients, amounts, 0, start);
  }
}
