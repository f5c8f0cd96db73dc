/**
 * What one `processTransactions` cycle guarantees, proved about the reference
 * definition in `Dispatch` (and so, through the contracts of `Processor`,
 * about the loop itself):
 *
 *   - every key gets its turn, once, in key order, whatever the network
 *     answered for the keys before it (every key is taken to be accepted by
 *     the wallet constructor);
 *   - within a key, recipients get their turns in list order until the balance
 *     re-check fails; a failed gas-price fetch, an unaffordable transfer or a
 *     failed send skips only that recipient;
 *   - a transaction is submitted for (key, recipient) exactly when the
 *     re-read balance is at least the reserve, the gas price was fetched, the
 *     balance pays the amount plus 21000 units of gas, and the send succeeded;
 *     so there is at most one submission per pair, in lexicographic order;
 *   - no send call is made for a recipient unless the re-read balance is at
 *     least the reserve, the gas price was fetched and the transfer is
 *     affordable;
 *   - every send and every submission carries the transaction built for its
 *     recipient; every send is covered by a balance reading of its own wallet
 *     and a gas price fetched since the previous send, and every submission
 *     reports the send just started;
 *   - a key whose first balance query fails or reads below the reserve is
 *     skipped without any recipient getting a turn;
 *   - the receipt verdict is decided by the first receipt poll that does not
 *     throw, or is an error carrying the last poll's error.
 */
module Facts {
  import opened Rpc
  import opened Retrying
  import opened Events
  import opened Dispatch

  // ---------------------------------------------------------------------------
  // Vocabulary

  /** A send, and a submission, carry the transaction the source builds for its recipient. */
  predicate WellBuilt(chain: Chain, recipients: seq<Address>, amounts: (nat, nat) -> nat, e: Event)
  {
    Guarded(e) ==>
      && e.recipient < |recipients|
      && e.tx == Tx(recipients[e.recipient], amounts(e.wallet, e.recipient), GAS_LIMIT, e.tx.gasPrice, chain.chainId)
  }

  /** An event a recipient loop may log: nothing that opens or closes a wallet's turn. */
  predicate Local(e: Event)
  {
    !e.Processing? && !e.SkipWallet? && !e.WalletDone?
  }

  /** The balance query issued after `c` calls yields at least the reserve. */
  predicate Solvent(net: Network, c: Calls)
  {
    var bq := BalanceQuery(net, c.balance);
    bq.result.Returned? && bq.result.value >= MIN_RESERVE
  }

  /** The counters after the balance query issued after `c` calls. */
  function AfterBalance(net: Network, c: Calls): Calls
  {
    c.(balance := c.balance + BalanceQuery(net, c.balance).calls)
  }

  /** The gas-price call made after `c` calls succeeds, and `balance` pays recipient `j`'s amount plus 21000 units of that price. */
  predicate Affordable(net: Network, k: nat, j: nat, amounts: (nat, nat) -> nat, balance: nat, c: Calls)
  {
    && net.gasPrice(c.fee).Ok?
    && amounts(k, j) + GAS_LIMIT * net.gasPrice(c.fee).value <= balance
  }

  /**
   * The turn of recipient `j` of wallet `k`, started after `c` calls, gets to
   * the send: the re-read balance is at least the reserve, the gas price is
   * fetched, and the balance pays the amount plus 21000 units of that price.
   * (The balance query moves only the balance counter, so the fee call is the
   * one after `c`.)
   */
  predicate Sends(net: Network, k: nat, j: nat, amounts: (nat, nat) -> nat, c: Calls)
  {
    Solvent(net, c) && Affordable(net, k, j, amounts, BalanceQuery(net, c.balance).result.value, c)
  }

  /** The turn gets to the send, and one of the send attempts succeeds. */
  predicate Submits(net: Network, k: nat, j: nat, amounts: (nat, nat) -> nat, c: Calls)
  {
    Sends(net, k, j, amounts, c) && SendQuery(net, c.send).result.Returned?
  }

  /** What the turn of recipient `j` has logged once the re-read balance passed the reserve. */
  function Opened(n: nat, k: nat, j: nat, balance: nat): seq<Event>
  {
    Pauses(n) + [BalanceRead(k, balance)] + [Sending(k, j)]
  }

  /** The properties every turn's own log has; `broke` says whether the turn ended the loop. */
  predicate TurnFacts(chain: Chain, k: nat, recipients: seq<Address>, amounts: (nat, nat) -> nat, j: nat,
                      t: seq<Event>, broke: bool)
  {
    && (forall e | e in t :: Local(e) && WellBuilt(chain, recipients, amounts, e))
    && Attempted(t) == (if broke then [] else [j])
    && (if broke then EndsInBreak(t) && BreakLast(t) else forall e | e in t :: !e.BreakWallet?)
  }

  /**
   * Every send and every submission in `t` is of recipient `j` of wallet `k`,
   * and carries the transaction built for it at the price the gas-price call
   * answered with `quote` (which therefore succeeded).
   */
  predicate SendsAt(chain: Chain, k: nat, recipients: seq<Address>, amounts: (nat, nat) -> nat, j: nat,
                    t: seq<Event>, quote: Outcome<nat>)
  {
    forall e | e in t && Guarded(e) ::
      && quote.Ok? && j < |recipients| && e.wallet == k && e.recipient == j
      && e.tx == Tx(recipients[j], amounts(k, j), GAS_LIMIT, quote.value, chain.chainId)
  }

  /** The answer of a gas-price call as the log reports it. */
  function Answer(quote: Outcome<nat>): Option<nat>
  {
    if quote.Ok? then Some(quote.value) else None
  }

  // ---------------------------------------------------------------------------
  // One turn of the recipient loop

  lemma OpenedFacts(chain: Chain, k: nat, recipients: seq<Address>, amounts: (nat, nat) -> nat, j: nat,
                    g: Gate, n: nat, balance: nat)
    ensures TurnFacts(chain, k, recipients, amounts, j, Opened(n, k, j, balance), false)
    ensures Submissions(Opened(n, k, j, balance)) == [] && Attempted(Opened(n, k, j, balance)) == [j]
    ensures GateAfter(g, Opened(n, k, j, balance)) == g.(reading := Some(Reading(k, balance)))
    ensures Gated(g, Opened(n, k, j, balance))
  {
    OpenedViews(chain, k, recipients, amounts, j, n, balance);
    OpenedGate(k, j, g, n, balance);
  }

  lemma OpenedViews(chain: Chain, k: nat, recipients: seq<Address>, amounts: (nat, nat) -> nat, j: nat,
                    n: nat, balance: nat)
    ensures TurnFacts(chain, k, recipients, amounts, j, Opened(n, k, j, balance), false)
    ensures Submissions(Opened(n, k, j, balance)) == [] && Attempted(Opened(n, k, j, balance)) == [j]
  {
    var prefix := Opened(n, k, j, balance);
    var read := Pauses(n) + [BalanceRead(k, balance)];
    PausesAreSleeps(n);
    assert forall e | e in prefix :: e == Sleep(RETRY_DELAY) || e == BalanceRead(k, balance) || e == Sending(k, j);
    CollectNone(prefix, SlotOf);
    CollectNone(read, AttemptOf);
    CollectAppend(read, [Sending(k, j)], AttemptOf);
    assert [Sending(k, j)][1..] == [];
  }

  lemma OpenedGate(k: nat, j: nat, g: Gate, n: nat, balance: nat)
    ensures GateAfter(g, Opened(n, k, j, balance)) == g.(reading := Some(Reading(k, balance)))
    ensures Gated(g, Opened(n, k, j, balance))
  {
    var prefix := Opened(n, k, j, balance);
    var rest := [BalanceRead(k, balance), Sending(k, j)];
    PausesAreSleeps(n);
    GatedWithoutSends(g, prefix);
    assert prefix == Pauses(n) + rest;
    GateAfterAppend(g, Pauses(n), rest);
    GateAfterPauses(g, n);
    var h := g.(reading := Some(Reading(k, balance)));
    assert rest[1..] == [Sending(k, j)];
    assert GateAfter(h, [Sending(k, j)]) == GateAfter(h, []);
    assert GateAfter(g, rest) == h;
  }

  /** A turn's log, extended by one more event that neither breaks nor starts a turn, keeps its properties. */
  lemma Extend(chain: Chain, k: nat, recipients: seq<Address>, amounts: (nat, nat) -> nat, j: nat, g: Gate,
               s: seq<Event>, e: Event)
    requires TurnFacts(chain, k, recipients, amounts, j, s, false) && Gated(g, s)
    requires Local(e) && WellBuilt(chain, recipients, amounts, e) && !e.BreakWallet? && !e.Sending?
    requires Guarded(e) ==> Admits(GateAfter(g, s), e)
    ensures TurnFacts(chain, k, recipients, amounts, j, s + [e], false) && Gated(g, s + [e])
    ensures Submissions(s + [e]) == Submissions(s) + (if e.Submitted? then [Slot(e.wallet, e.recipient)] else [])
    ensures GateAfter(g, s + [e]) == Observe(GateAfter(g, s), e)
  {
    Snoc(g, s, e);
  }

  /** The same for retry pauses. */
  lemma ExtendPauses(chain: Chain, k: nat, recipients: seq<Address>, amounts: (nat, nat) -> nat, j: nat, g: Gate,
                     s: seq<Event>, n: nat)
    requires TurnFacts(chain, k, recipients, amounts, j, s, false) && Gated(g, s)
    ensures TurnFacts(chain, k, recipients, amounts, j, s + Pauses(n), false) && Gated(g, s + Pauses(n))
    ensures Submissions(s + Pauses(n)) == Submissions(s)
    ensures GateAfter(g, s + Pauses(n)) == GateAfter(g, s)
  {
    SnocPauses(g, s, n);
  }

  /** What the turn has logged once the gas price was read: a turn prefix with a full gate and no submission. */
  lemma PricedFacts(chain: Chain, k: nat, recipients: seq<Address>, amounts: (nat, nat) -> nat, j: nat,
                    price: nat, n: nat, balance: nat, g: Gate)
    ensures var s := Opened(n, k, j, balance) + [GasPriceRead(k, price)];
      && TurnFacts(chain, k, recipients, amounts, j, s, false)
      && Gated(g, s)
      && Submissions(s) == []
      && GateAfter(g, s) == g.(reading := Some(Reading(k, balance)), price := Some(price))
  {
    OpenedFacts(chain, k, recipients, amounts, j, g, n, balance);
    Snoc(g, Opened(n, k, j, balance), GasPriceRead(k, price));
  }

  /** What the turn has logged once the send of `tx` started. */
  function Started(n: nat, k: nat, j: nat, balance: nat, tx: Tx): seq<Event>
  {
    Opened(n, k, j, balance) + [GasPriceRead(k, tx.gasPrice)] + [SendStarted(k, j, tx)]
  }

  /** The start of the send is admitted by the reading and the price before it, and leaves only itself in the gate. */
  lemma StartedFacts(chain: Chain, k: nat, recipients: seq<Address>, amounts: (nat, nat) -> nat, j: nat,
                     tx: Tx, n: nat, balance: nat, g: Gate)
    requires j < |recipients|
    requires tx == Tx(recipients[j], amounts(k, j), GAS_LIMIT, tx.gasPrice, chain.chainId)
    requires MIN_RESERVE <= balance && tx.value + GAS_LIMIT * tx.gasPrice <= balance
    ensures var s := Started(n, k, j, balance, tx);
      && TurnFacts(chain, k, recipients, amounts, j, s, false)
      && Gated(g, s)
      && Submissions(s) == []
      && GateAfter(g, s) == Gate(None, None, Some(SendStarted(k, j, tx)))
  {
    var priced := Opened(n, k, j, balance) + [GasPriceRead(k, tx.gasPrice)];
    PricedFacts(chain, k, recipients, amounts, j, tx.gasPrice, n, balance, g);
    Extend(chain, k, recipients, amounts, j, g, priced, SendStarted(k, j, tx));
  }

  /** The log of a turn whose send failed after `m` pauses. */
  lemma SendFailedFacts(chain: Chain, k: nat, recipients: seq<Address>, amounts: (nat, nat) -> nat, j: nat,
                        tx: Tx, n: nat, balance: nat, m: nat, error: RpcError, g: Gate)
    requires j < |recipients|
    requires tx == Tx(recipients[j], amounts(k, j), GAS_LIMIT, tx.gasPrice, chain.chainId)
    requires MIN_RESERVE <= balance && tx.value + GAS_LIMIT * tx.gasPrice <= balance
    ensures var t := Started(n, k, j, balance, tx) + Pauses(m) + [SkipRecipient(k, j, SendFailed(error))];
      && TurnFacts(chain, k, recipients, amounts, j, t, false)
      && Gated(g, t)
      && Submissions(t) == []
  {
    var started := Started(n, k, j, balance, tx);
    StartedFacts(chain, k, recipients, amounts, j, tx, n, balance, g);
    ExtendPauses(chain, k, recipients, amounts, j, g, started, m);
    Extend(chain, k, recipients, amounts, j, g, started + Pauses(m), SkipRecipient(k, j, SendFailed(error)));
  }

  /** The log of a turn that submitted `tx` after `m` pauses and logged `verdict` after `p` more. */
  lemma SubmittedFacts(chain: Chain, k: nat, recipients: seq<Address>, amounts: (nat, nat) -> nat, j: nat,
                       tx: Tx, n: nat, balance: nat, m: nat, hash: Hash, p: nat, verdict: Event, g: Gate)
    requires j < |recipients|
    requires tx == Tx(recipients[j], amounts(k, j), GAS_LIMIT, tx.gasPrice, chain.chainId)
    requires MIN_RESERVE <= balance && tx.value + GAS_LIMIT * tx.gasPrice <= balance
    requires verdict.Confirmed? || verdict.Reverted? || verdict.Pending? || verdict.ReceiptError?
    ensures var t := Started(n, k, j, balance, tx) + Pauses(m) + [Submitted(k, j, tx, hash)]
                     + [Sleep(SETTLE_DELAY)] + Pauses(p) + [verdict];
      && TurnFacts(chain, k, recipients, amounts, j, t, false)
      && Gated(g, t)
      && Submissions(t) == [Slot(k, j)]
  {
    var sending := Started(n, k, j, balance, tx) + Pauses(m);
    StartedFacts(chain, k, recipients, amounts, j, tx, n, balance, g);
    ExtendPauses(chain, k, recipients, amounts, j, g, Started(n, k, j, balance, tx), m);
    var submitted := sending + [Submitted(k, j, tx, hash)];
    Extend(chain, k, recipients, amounts, j, g, sending, Submitted(k, j, tx, hash));
    var settled := submitted + [Sleep(SETTLE_DELAY)];
    Extend(chain, k, recipients, amounts, j, g, submitted, Sleep(SETTLE_DELAY));
    ExtendPauses(chain, k, recipients, amounts, j, g, settled, p);
    Extend(chain, k, recipients, amounts, j, g, settled + Pauses(p), verdict);
  }

  /** A turn's log reports the gas-price answer `quote`, and sends (if any) at that price to recipient `j`. */
  predicate TurnPrice(chain: Chain, k: nat, recipients: seq<Address>, amounts: (nat, nat) -> nat, j: nat,
                      t: seq<Event>, quote: Outcome<nat>)
  {
    Quotes(t) == [Answer(quote)] && SendsAt(chain, k, recipients, amounts, j, t, quote)
  }

  /** The part of a turn before its gas-price call reports no answer and sends nothing. */
  lemma OpenedPrice(k: nat, j: nat, n: nat, balance: nat)
    ensures Quotes(Opened(n, k, j, balance)) == [] && forall e | e in Opened(n, k, j, balance) :: !Guarded(e)
  {
    PausesAreSleeps(n);
    CollectNone(Opened(n, k, j, balance), QuoteOf);
  }

  /** A turn's log, extended by an event that reports no gas price and sends only at the turn's price. */
  lemma ExtendPrice(chain: Chain, k: nat, recipients: seq<Address>, amounts: (nat, nat) -> nat, j: nat,
                    t: seq<Event>, quote: Outcome<nat>, e: Event)
    requires TurnPrice(chain, k, recipients, amounts, j, t, quote)
    requires QuoteOf(e).None? && SendsAt(chain, k, recipients, amounts, j, [e], quote)
    ensures TurnPrice(chain, k, recipients, amounts, j, t + [e], quote)
  {
    CollectNone([e], QuoteOf);
    CollectAppend(t, [e], QuoteOf);
  }

  lemma ExtendPricePauses(chain: Chain, k: nat, recipients: seq<Address>, amounts: (nat, nat) -> nat, j: nat,
                          t: seq<Event>, quote: Outcome<nat>, n: nat)
    requires TurnPrice(chain, k, recipients, amounts, j, t, quote)
    ensures TurnPrice(chain, k, recipients, amounts, j, t + Pauses(n), quote)
  {
    PausesAreSleeps(n);
    CollectPauses(t, n, QuoteOf);
  }

  /** Once the gas price was read, the turn reports that price; once the send started, it sends at it. */
  lemma StartedPrice(chain: Chain, k: nat, recipients: seq<Address>, amounts: (nat, nat) -> nat, j: nat,
                     tx: Tx, n: nat, balance: nat)
    requires j < |recipients|
    requires tx == Tx(recipients[j], amounts(k, j), GAS_LIMIT, tx.gasPrice, chain.chainId)
    ensures TurnPrice(chain, k, recipients, amounts, j, Opened(n, k, j, balance) + [GasPriceRead(k, tx.gasPrice)], Ok(tx.gasPrice))
    ensures TurnPrice(chain, k, recipients, amounts, j, Started(n, k, j, balance, tx), Ok(tx.gasPrice))
  {
    var priced := Opened(n, k, j, balance) + [GasPriceRead(k, tx.gasPrice)];
    OpenedPrice(k, j, n, balance);
    CollectAppend(Opened(n, k, j, balance), [GasPriceRead(k, tx.gasPrice)], QuoteOf);
    assert [GasPriceRead(k, tx.gasPrice)][1..] == [];
    ExtendPrice(chain, k, recipients, amounts, j, priced, Ok(tx.gasPrice), SendStarted(k, j, tx));
  }

  /** The send stage logs no further gas price, and sends and submits only `tx`. */
  lemma SendPrice(chain: Chain, k: nat, recipients: seq<Address>, amounts: (nat, nat) -> nat, j: nat,
                  tx: Tx, n: nat, balance: nat, m: nat, outcome: Outcome<Hash>, p: nat, verdict: Event)
    requires j < |recipients|
    requires tx == Tx(recipients[j], amounts(k, j), GAS_LIMIT, tx.gasPrice, chain.chainId)
    requires outcome.Ok? ==> verdict.Confirmed? || verdict.Reverted? || verdict.Pending? || verdict.ReceiptError?
    ensures outcome.Err? ==>
      TurnPrice(chain, k, recipients, amounts, j,
                Started(n, k, j, balance, tx) + Pauses(m) + [SkipRecipient(k, j, SendFailed(outcome.error))], Ok(tx.gasPrice))
    ensures outcome.Ok? ==>
      TurnPrice(chain, k, recipients, amounts, j,
                Started(n, k, j, balance, tx) + Pauses(m) + [Submitted(k, j, tx, outcome.value)]
                + [Sleep(SETTLE_DELAY)] + Pauses(p) + [verdict], Ok(tx.gasPrice))
  {
    var sending := Started(n, k, j, balance, tx) + Pauses(m);
    StartedPrice(chain, k, recipients, amounts, j, tx, n, balance);
    ExtendPricePauses(chain, k, recipients, amounts, j, Started(n, k, j, balance, tx), Ok(tx.gasPrice), m);
    if outcome.Err? {
      ExtendPrice(chain, k, recipients, amounts, j, sending, Ok(tx.gasPrice), SkipRecipient(k, j, SendFailed(outcome.error)));
    } else {
      var submitted := sending + [Submitted(k, j, tx, outcome.value)];
      ExtendPrice(chain, k, recipients, amounts, j, sending, Ok(tx.gasPrice), Submitted(k, j, tx, outcome.value));
      ExtendPrice(chain, k, recipients, amounts, j, submitted, Ok(tx.gasPrice), Sleep(SETTLE_DELAY));
      ExtendPricePauses(chain, k, recipients, amounts, j, submitted + [Sleep(SETTLE_DELAY)], Ok(tx.gasPrice), p);
      ExtendPrice(chain, k, recipients, amounts, j, submitted + [Sleep(SETTLE_DELAY)] + Pauses(p), Ok(tx.gasPrice), verdict);
    }
  }

  /** The send stage after the gas price was read, as a log and the counters it leaves, by the outcome of the retried send. */
  lemma SendRun(net: Network, chain: Chain, k: nat, recipients: seq<Address>, amounts: (nat, nat) -> nat, j: nat,
                tx: Tx, c: Calls, n: nat, balance: nat)
    returns (t: seq<Event>, next: Calls)
    requires j < |recipients|
    ensures SendStage(net, chain, k, recipients, amounts, j, tx, c, Opened(n, k, j, balance) + [GasPriceRead(k, tx.gasPrice)])
            == Then(t, Recipients(net, chain, k, recipients, amounts, j + 1, next))
    ensures next.balance == c.balance && next.fee == c.fee && next.send == c.send + SendQuery(net, c.send).calls
    ensures next.receipt == c.receipt + if SendQuery(net, c.send).result.Returned? then ReceiptQuery(net, c.receipt).calls else 0
    ensures SendQuery(net, c.send).result.Rethrown? ==>
              t == Started(n, k, j, balance, tx) + Pauses(SendQuery(net, c.send).sleeps)
                   + [SkipRecipient(k, j, SendFailed(SendQuery(net, c.send).result.error))]
    ensures SendQuery(net, c.send).result.Returned? ==>
              t == Started(n, k, j, balance, tx) + Pauses(SendQuery(net, c.send).sleeps)
                   + [Submitted(k, j, tx, SendQuery(net, c.send).result.value)] + [Sleep(SETTLE_DELAY)]
                   + Pauses(ReceiptQuery(net, c.receipt).sleeps)
                   + [Classify(SendQuery(net, c.send).result.value, AsOutcome(ReceiptQuery(net, c.receipt).result))]
  {
    var sq := SendQuery(net, c.send);
    var sending := Started(n, k, j, balance, tx) + Pauses(sq.sleeps);
    assert sending == Opened(n, k, j, balance) + [GasPriceRead(k, tx.gasPrice)] + [SendStarted(k, j, tx)] + Pauses(sq.sleeps);
    next := c.(send := c.send + sq.calls);
    if sq.result.Rethrown? {
      assert AsOutcome(sq.result) == Err(sq.result.error);
      t := sending + [SkipRecipient(k, j, SendFailed(sq.result.error))];
    } else {
      assert AsOutcome(sq.result) == Ok(sq.result.value);
      var rq := ReceiptQuery(net, c.receipt);
      t := sending + [Submitted(k, j, tx, sq.result.value)] + [Sleep(SETTLE_DELAY)] + Pauses(rq.sleeps)
           + [Classify(sq.result.value, AsOutcome(rq.result))];
      next := next.(receipt := c.receipt + rq.calls);
    }
  }

  /**
   * The send stage: it never breaks, makes the send calls of one retry-wrapped
   * send and, when that succeeds, the receipt calls of one retry-wrapped poll;
   * it submits exactly when a send attempt succeeds, and then logs the
   * receipt's verdict.
   */
  lemma SendTurn(net: Network, chain: Chain, k: nat, recipients: seq<Address>, amounts: (nat, nat) -> nat, j: nat,
                 tx: Tx, c: Calls, n: nat, balance: nat, g: Gate)
    returns (t: seq<Event>, next: Calls)
    requires j < |recipients|
    requires tx == Tx(recipients[j], amounts(k, j), GAS_LIMIT, tx.gasPrice, chain.chainId)
    requires MIN_RESERVE <= balance && tx.value + GAS_LIMIT * tx.gasPrice <= balance
    ensures SendStage(net, chain, k, recipients, amounts, j, tx, c, Opened(n, k, j, balance) + [GasPriceRead(k, tx.gasPrice)])
            == Then(t, Recipients(net, chain, k, recipients, amounts, j + 1, next))
    ensures next.balance == c.balance && next.fee == c.fee && next.send == c.send + SendQuery(net, c.send).calls
    ensures next.receipt == c.receipt + if SendQuery(net, c.send).result.Returned? then ReceiptQuery(net, c.receipt).calls else 0
    ensures TurnFacts(chain, k, recipients, amounts, j, t, false)
    ensures Gated(g, t)
    ensures Submissions(t) == if SendQuery(net, c.send).result.Returned? then [Slot(k, j)] else []
    ensures TurnPrice(chain, k, recipients, amounts, j, t, Ok(tx.gasPrice))
    ensures SendQuery(net, c.send).result.Returned? ==>
              t[|t| - 1] == Classify(SendQuery(net, c.send).result.value, AsOutcome(ReceiptQuery(net, c.receipt).result))
  {
    var sq := SendQuery(net, c.send);
    t, next := SendRun(net, chain, k, recipients, amounts, j, tx, c, n, balance);
    if sq.result.Rethrown? {
      SendFailedFacts(chain, k, recipients, amounts, j, tx, n, balance, sq.sleeps, sq.result.error, g);
      SendPrice(chain, k, recipients, amounts, j, tx, n, balance, sq.sleeps, Err(sq.result.error), 0, Sleep(0));
    } else {
      var rq := ReceiptQuery(net, c.receipt);
      var verdict := Classify(sq.result.value, AsOutcome(rq.result));
      SubmittedFacts(chain, k, recipients, amounts, j, tx, n, balance, sq.sleeps, sq.result.value, rq.sleeps, verdict, g);
      SendPrice(chain, k, recipients, amounts, j, tx, n, balance, sq.sleeps, Ok(sq.result.value), rq.sleeps, verdict);
    }
  }

  /** The log of a turn that broke out of the loop after the events `pre` (pauses and perhaps a balance reading). */
  lemma BrokeFacts(chain: Chain, k: nat, recipients: seq<Address>, amounts: (nat, nat) -> nat, j: nat, g: Gate,
                   pre: seq<Event>, stop: WalletStop)
    requires forall e | e in pre :: e == Sleep(RETRY_DELAY) || e.BalanceRead?
    ensures TurnFacts(chain, k, recipients, amounts, j, pre + [BreakWallet(k, stop)], true)
    ensures Gated(g, pre + [BreakWallet(k, stop)])
    ensures Submissions(pre + [BreakWallet(k, stop)]) == []
  {
    var t := pre + [BreakWallet(k, stop)];
    CollectNone(pre, SlotOf);
    CollectNone(pre, AttemptOf);
    Snoc(g, pre, BreakWallet(k, stop));
    GatedWithoutSends(g, t);
    BreakLastAppend(pre, [BreakWallet(k, stop)]);
  }

  /** A turn that broke out of the loop reports no gas price and sends nothing. */
  lemma BrokePrice(k: nat, pre: seq<Event>, stop: WalletStop)
    requires forall e | e in pre :: e == Sleep(RETRY_DELAY) || e.BalanceRead?
    ensures Quotes(pre + [BreakWallet(k, stop)]) == [] && forall e | e in pre + [BreakWallet(k, stop)] :: !Guarded(e)
  {
    CollectNone(pre + [BreakWallet(k, stop)], QuoteOf);
  }

  /** The log of a turn that skipped its recipient at the gas price: the fetch failed, or the transfer is unaffordable at the price. */
  function Skipped(n: nat, k: nat, j: nat, balance: nat, quote: Outcome<nat>): seq<Event>
  {
    if quote.Err? then Opened(n, k, j, balance) + [SkipRecipient(k, j, FeeUnavailable)]
    else Opened(n, k, j, balance) + [GasPriceRead(k, quote.value)] + [SkipRecipient(k, j, InsufficientFunds)]
  }

  lemma SkippedFacts(chain: Chain, k: nat, recipients: seq<Address>, amounts: (nat, nat) -> nat, j: nat, g: Gate,
                     n: nat, balance: nat, quote: Outcome<nat>)
    requires j < |recipients|
    ensures TurnFacts(chain, k, recipients, amounts, j, Skipped(n, k, j, balance, quote), false)
    ensures Gated(g, Skipped(n, k, j, balance, quote)) && Submissions(Skipped(n, k, j, balance, quote)) == []
    ensures TurnPrice(chain, k, recipients, amounts, j, Skipped(n, k, j, balance, quote), quote)
  {
    var prefix := Opened(n, k, j, balance);
    if quote.Err? {
      OpenedFacts(chain, k, recipients, amounts, j, g, n, balance);
      Extend(chain, k, recipients, amounts, j, g, prefix, SkipRecipient(k, j, FeeUnavailable));
      OpenedPrice(k, j, n, balance);
      CollectSnoc(prefix, SkipRecipient(k, j, FeeUnavailable), QuoteOf);
    } else {
      var price := quote.value;
      var priced := prefix + [GasPriceRead(k, price)];
      PricedFacts(chain, k, recipients, amounts, j, price, n, balance, g);
      Extend(chain, k, recipients, amounts, j, g, priced, SkipRecipient(k, j, InsufficientFunds));
      StartedPrice(chain, k, recipients, amounts, j, Tx(recipients[j], amounts(k, j), GAS_LIMIT, price, chain.chainId), n, balance);
      ExtendPrice(chain, k, recipients, amounts, j, priced, quote, SkipRecipient(k, j, InsufficientFunds));
    }
  }

  /**
   * The gas-price stage: it never breaks and makes one gas-price call; it
   * makes send calls only when the price is fetched and the transfer is
   * affordable, and submits exactly when in addition a send attempt succeeds.
   */
  lemma PriceTurn(net: Network, chain: Chain, k: nat, recipients: seq<Address>, amounts: (nat, nat) -> nat, j: nat,
                  balance: nat, c: Calls, n: nat, g: Gate)
    returns (t: seq<Event>, next: Calls)
    requires j < |recipients| && MIN_RESERVE <= balance
    ensures PriceStage(net, chain, k, recipients, amounts, j, balance, c, Opened(n, k, j, balance))
            == Then(t, Recipients(net, chain, k, recipients, amounts, j + 1, next))
    ensures next.balance == c.balance && next.fee == c.fee + 1
    ensures next.send == c.send + if Affordable(net, k, j, amounts, balance, c) then SendQuery(net, c.send).calls else 0
    ensures next.receipt == c.receipt
              + if Affordable(net, k, j, amounts, balance, c) && SendQuery(net, c.send).result.Returned?
                then ReceiptQuery(net, c.receipt).calls else 0
    ensures TurnFacts(chain, k, recipients, amounts, j, t, false)
    ensures Gated(g, t)
    ensures Submissions(t)
            == if Affordable(net, k, j, amounts, balance, c) && SendQuery(net, c.send).result.Returned?
               then [Slot(k, j)] else []
    ensures TurnPrice(chain, k, recipients, amounts, j, t, net.gasPrice(c.fee))
  {
    var prefix := Opened(n, k, j, balance);
    next := c.(fee := c.fee + 1);
    match net.gasPrice(c.fee)
    case Err(_) =>
      t := Skipped(n, k, j, balance, net.gasPrice(c.fee));
      SkippedFacts(chain, k, recipients, amounts, j, g, n, balance, net.gasPrice(c.fee));
    case Ok(price) =>
      var amount := amounts(k, j);
      if balance < amount + GAS_LIMIT * price {
        t := Skipped(n, k, j, balance, net.gasPrice(c.fee));
        SkippedFacts(chain, k, recipients, amounts, j, g, n, balance, net.gasPrice(c.fee));
      } else {
        t, next := SendTurn(net, chain, k, recipients, amounts, j, Tx(recipients[j], amount, GAS_LIMIT, price, chain.chainId),
                            next, n, balance, g);
      }
  }

  /**
   * One whole turn: it breaks out of the loop exactly when the balance re-check
   * fails or reads below the reserve, and then has made no call but the balance
   * query; otherwise it makes one gas-price call. It makes send calls exactly
   * when `Sends` holds, and submits exactly when `Submits` holds.
   */
  lemma BalanceTurn(net: Network, chain: Chain, k: nat, recipients: seq<Address>, amounts: (nat, nat) -> nat, j: nat,
                    c: Calls, g: Gate)
    returns (t: seq<Event>, next: Calls, broke: bool)
    requires j < |recipients|
    ensures BalanceStage(net, chain, k, recipients, amounts, j, c)
            == if broke then Run(next, t) else Then(t, Recipients(net, chain, k, recipients, amounts, j + 1, next))
    ensures TurnFacts(chain, k, recipients, amounts, j, t, broke)
    ensures Gated(g, t)
    ensures broke <==> !Solvent(net, c)
    ensures broke ==> next == AfterBalance(net, c)
    ensures !broke ==> next.balance == AfterBalance(net, c).balance && next.fee == c.fee + 1
    ensures next.send == c.send + if Sends(net, k, j, amounts, c) then SendQuery(net, c.send).calls else 0
    ensures next.receipt == c.receipt + if Submits(net, k, j, amounts, c) then ReceiptQuery(net, c.receipt).calls else 0
    ensures Submissions(t) == if Submits(net, k, j, amounts, c) then [Slot(k, j)] else []
    ensures if broke then Quotes(t) == [] && SendsAt(chain, k, recipients, amounts, j, t, net.gasPrice(c.fee))
            else TurnPrice(chain, k, recipients, amounts, j, t, net.gasPrice(c.fee))
  {
    var bq := BalanceQuery(net, c.balance);
    var c1 := c.(balance := c.balance + bq.calls);
    var waited := Pauses(bq.sleeps);
    PausesAreSleeps(bq.sleeps);
    if bq.result.Rethrown? {
      t, next, broke := waited + [BreakWallet(k, BalanceUnavailable)], c1, true;
      BrokeFacts(chain, k, recipients, amounts, j, g, waited, BalanceUnavailable);
      BrokePrice(k, waited, BalanceUnavailable);
    } else if bq.result.value < MIN_RESERVE {
      t, next, broke := waited + [BalanceRead(k, bq.result.value)] + [BreakWallet(k, BelowReserve)], c1, true;
      BrokeFacts(chain, k, recipients, amounts, j, g, waited + [BalanceRead(k, bq.result.value)], BelowReserve);
      BrokePrice(k, waited + [BalanceRead(k, bq.result.value)], BelowReserve);
    } else {
      assert c1.fee == c.fee && c1.send == c.send && c1.receipt == c.receipt;
      assert Sends(net, k, j, amounts, c) == Affordable(net, k, j, amounts, bq.result.value, c1);
      t, next := PriceTurn(net, chain, k, recipients, amounts, j, bq.result.value, c1, bq.sleeps, g);
      broke := false;
    }
  }

  // ---------------------------------------------------------------------------
  // The recipient loop of one wallet

  /** Submissions in a log of wallet `k`'s recipient loop from recipient `j` on: of wallet `k`, for recipients `j` to `count - 1`, in order. */
  predicate SubmissionsFrom(k: nat, j: nat, count: nat, s: seq<Event>)
  {
    && (forall x | x in Submissions(s) :: x.wallet == k && j <= x.recipient < count)
    && Ordered(Submissions(s))
  }

  /**
   * Turns in a log of the recipient loop from recipient `j` on: recipients
   * `j`, `j + 1`, ... get their turns in order until a `break`, which can only
   * be the last event and happens exactly when the loop stopped short of the
   * last recipient.
   */
  predicate TurnsFrom(recipients: seq<Address>, j: nat, s: seq<Event>)
  {
    && Attempted(s) == Range(j, j + |Attempted(s)|)
    && j + |Attempted(s)| <= |recipients|
    && BreakLast(s)
    && (EndsInBreak(s) <==> j + |Attempted(s)| < |recipients|)
  }

  /** The properties of the log `s` of wallet `k`'s recipient loop from recipient `j` on. */
  predicate LoopFacts(chain: Chain, k: nat, recipients: seq<Address>, amounts: (nat, nat) -> nat, j: nat, s: seq<Event>)
  {
    && (forall e | e in s :: Local(e) && WellBuilt(chain, recipients, amounts, e))
    && SubmissionsFrom(k, j, |recipients|, s)
    && TurnsFrom(recipients, j, s)
  }

  lemma ContinuedSubmissions(k: nat, j: nat, count: nat, t: seq<Event>, rest: seq<Event>)
    requires j < count
    requires Submissions(t) == [] || Submissions(t) == [Slot(k, j)]
    requires SubmissionsFrom(k, j + 1, count, rest)
    ensures SubmissionsFrom(k, j, count, t + rest)
  {
    CollectAppend(t, rest, SlotOf);
    OrderedAppend(Submissions(t), Submissions(rest));
  }

  lemma ContinuedTurns(recipients: seq<Address>, j: nat, t: seq<Event>, rest: seq<Event>)
    requires Attempted(t) == [j] && forall e | e in t :: !e.BreakWallet?
    requires TurnsFrom(recipients, j + 1, rest)
    ensures TurnsFrom(recipients, j, t + rest)
  {
    CollectAppend(t, rest, AttemptOf);
    BreakLastAppend(t, rest);
    assert [j] + Range(j + 1, j + 1 + |Attempted(rest)|) == Range(j, j + 1 + |Attempted(rest)|);
  }

  /** A turn that went on to the next recipient, followed by the rest of the loop. */
  lemma ContinuedLoop(chain: Chain, k: nat, recipients: seq<Address>, amounts: (nat, nat) -> nat, j: nat, g: Gate,
                      t: seq<Event>, rest: seq<Event>)
    requires j < |recipients|
    requires TurnFacts(chain, k, recipients, amounts, j, t, false) && Gated(g, t)
    requires Submissions(t) == [] || Submissions(t) == [Slot(k, j)]
    requires LoopFacts(chain, k, recipients, amounts, j + 1, rest) && Gated(GateAfter(g, t), rest)
    ensures LoopFacts(chain, k, recipients, amounts, j, t + rest) && Gated(g, t + rest)
  {
    ContinuedSubmissions(k, j, |recipients|, t, rest);
    ContinuedTurns(recipients, j, t, rest);
    GatedAppend(g, t, rest);
  }

  /** A turn that broke out of the loop is all the rest of the loop logs. */
  lemma BrokenLoop(chain: Chain, k: nat, recipients: seq<Address>, amounts: (nat, nat) -> nat, j: nat, t: seq<Event>)
    requires j < |recipients|
    requires TurnFacts(chain, k, recipients, amounts, j, t, true) && Submissions(t) == []
    ensures LoopFacts(chain, k, recipients, amounts, j, t)
  {
    assert Range(j, j) == [];
  }

  /** Past the last recipient the loop logs nothing. */
  lemma FinishedLoop(chain: Chain, k: nat, recipients: seq<Address>, amounts: (nat, nat) -> nat)
    ensures LoopFacts(chain, k, recipients, amounts, |recipients|, [])
  {
    assert Range(|recipients|, |recipients|) == [];
  }

  lemma {:induction false} RecipientsFacts(net: Network, chain: Chain, k: nat, recipients: seq<Address>,
                                           amounts: (nat, nat) -> nat, j: nat, c: Calls, g: Gate)
    requires j <= |recipients|
    ensures LoopFacts(chain, k, recipients, amounts, j, Recipients(net, chain, k, recipients, amounts, j, c).log)
    ensures Gated(g, Recipients(net, chain, k, recipients, amounts, j, c).log)
    decreases |recipients| - j
  {
    if j == |recipients| {
      FinishedLoop(chain, k, recipients, amounts);
    } else {
      var t, next, broke := BalanceTurn(net, chain, k, recipients, amounts, j, c, g);
      if broke {
        BrokenLoop(chain, k, recipients, amounts, j, t);
      } else {
        var rest := Recipients(net, chain, k, recipients, amounts, j + 1, next);
        RecipientsFacts(net, chain, k, recipients, amounts, j + 1, next, GateAfter(g, t));
        ContinuedLoop(chain, k, recipients, amounts, j, g, t, rest.log);
      }
    }
  }

  /**
   * The turn of recipient `j` from `c` calls on: it gets past the balance
   * re-check exactly when the re-read balance is at least the reserve; if not,
   * the loop ends there, having made no call but the balance query and
   * submitted nothing. If so, the rest of the loop runs from recipient `j + 1`
   * after one gas-price call, send calls only when `Sends` holds and receipt
   * calls only when `Submits` holds; and a transaction is submitted for
   * recipient `j` exactly when `Submits` holds.
   */
  lemma RecheckDecides(net: Network, chain: Chain, k: nat, recipients: seq<Address>, amounts: (nat, nat) -> nat,
                       j: nat, c: Calls)
    requires j < |recipients|
    ensures var r := Recipients(net, chain, k, recipients, amounts, j, c);
      && (Attempted(r.log) == [] <==> !Solvent(net, c))
      && (!Solvent(net, c) ==> r.calls == AfterBalance(net, c) && Submissions(r.log) == [] && EndsInBreak(r.log))
      && (Solvent(net, c) ==>
            var rest := Recipients(net, chain, k, recipients, amounts, j + 1, Continued(net, k, j, amounts, c));
            && r.calls == rest.calls
            && |rest.log| < |r.log|
            && r.log[|r.log| - |rest.log|..] == rest.log
            && TurnPrice(chain, k, recipients, amounts, j, r.log[..|r.log| - |rest.log|], net.gasPrice(c.fee)))
      && (Slot(k, j) in Submissions(r.log) <==> Submits(net, k, j, amounts, c))
  {
    var t, next, broke := BalanceTurn(net, chain, k, recipients, amounts, j, c, Closed);
    if !broke {
      assert next == Continued(net, k, j, amounts, c);
      assert |t| > 0 by { assert Attempted(t) == [j]; }
      var r := Recipients(net, chain, k, recipients, amounts, j, c);
      assert r.log == t + Recipients(net, chain, k, recipients, amounts, j + 1, next).log;
      var rest := Recipients(net, chain, k, recipients, amounts, j + 1, next);
      RecipientsFacts(net, chain, k, recipients, amounts, j + 1, next, Closed);
      CollectAppend(t, rest.log, SlotOf);
      CollectAppend(t, rest.log, AttemptOf);
      assert r.log[..|r.log| - |rest.log|] == t;
    }
  }

  /**
   * The counters after a turn of recipient `j` that got past the re-check: one
   * balance query, one gas-price call, the send calls when the turn sends and
   * the receipt calls when it submits.
   */
  function Continued(net: Network, k: nat, j: nat, amounts: (nat, nat) -> nat, c: Calls): Calls
  {
    Calls(AfterBalance(net, c).balance, c.fee + 1,
          c.send + (if Sends(net, k, j, amounts, c) then SendQuery(net, c.send).calls else 0),
          c.receipt + (if Submits(net, k, j, amounts, c) then ReceiptQuery(net, c.receipt).calls else 0))
  }

  // ---------------------------------------------------------------------------
  // Receipt polling

  /** The first receipt poll that does not throw decides the verdict: pending for no receipt, else by its status. */
  lemma PollSettles(fn: nat -> Outcome<Option<Receipt>>, from: nat, hash: Hash, i: nat)
    requires i < MAX_RETRIES
    requires forall i' :: from <= i' < from + i ==> fn(i').Err?
    requires fn(from + i).Ok?
    ensures Classify(hash, AsOutcome(RetryOutcome(fn, from, MAX_RETRIES).result))
            == match fn(from + i).value
               case None => Pending(hash)
               case Some(receipt) => if receipt.status == 1 then Confirmed(hash) else Reverted(hash)
  {
    RetryReturnsFirstSuccess(fn, from, MAX_RETRIES, i);
  }

  /** Every receipt poll throws: the verdict is an error carrying the last poll's error. */
  lemma PollFails(fn: nat -> Outcome<Option<Receipt>>, from: nat, hash: Hash)
    requires forall i :: from <= i < from + MAX_RETRIES ==> fn(i).Err?
    ensures Classify(hash, AsOutcome(RetryOutcome(fn, from, MAX_RETRIES).result))
            == ReceiptError(hash, fn(from + MAX_RETRIES - 1).error)
  {
    RetryRethrowsLastError(fn, from, MAX_RETRIES);
  }

  // ---------------------------------------------------------------------------
  // Wallets

  /** The properties of the log of wallet `k`'s turn. */
  predicate WalletFacts(chain: Chain, k: nat, recipients: seq<Address>, amounts: (nat, nat) -> nat, s: seq<Event>)
  {
    && Visited(s) == [k]
    && (forall e | e in s :: WellBuilt(chain, recipients, amounts, e))
    && (forall x | x in Submissions(s) :: x.wallet == k && x.recipient < |recipients|)
    && Ordered(Submissions(s))
  }

  /** What a wallet's turn logs before its balance is known: the start and the retry pauses. */
  lemma EnteredFacts(chain: Chain, k: nat, recipients: seq<Address>, amounts: (nat, nat) -> nat, m: nat, g: Gate)
    ensures Visited([Processing(k)] + Pauses(m)) == [k]
    ensures Submissions([Processing(k)] + Pauses(m)) == []
    ensures Attempted([Processing(k)] + Pauses(m)) == []
    ensures forall e | e in [Processing(k)] + Pauses(m) :: !Guarded(e)
    ensures Gated(g, [Processing(k)] + Pauses(m))
  {
    assert [] + [Processing(k)] == [Processing(k)];
    Snoc(g, [], Processing(k));
    SnocPauses(g, [Processing(k)], m);
  }

  /** A wallet skipped by the initial balance gate: its start, the pauses, perhaps a reading, and the skip. */
  lemma SkippedWalletFacts(chain: Chain, k: nat, recipients: seq<Address>, amounts: (nat, nat) -> nat, g: Gate,
                           pre: seq<Event>, e: Event)
    requires Visited(pre) == [k] && Submissions(pre) == [] && forall e' | e' in pre :: !Guarded(e')
    requires !e.Processing? && !Guarded(e)
    ensures WalletFacts(chain, k, recipients, amounts, pre + [e])
    ensures Gated(g, pre + [e])
  {
    Snoc(g, pre, e);
    GatedWithoutSends(g, pre + [e]);
  }

  /** A wallet that passed the initial balance gate: its opening, its recipient loop, and the closing event. */
  lemma EnteredWalletFacts(chain: Chain, k: nat, recipients: seq<Address>, amounts: (nat, nat) -> nat, g: Gate,
                           pre: seq<Event>, loop: seq<Event>)
    requires Visited(pre) == [k] && Submissions(pre) == [] && forall e | e in pre :: !Guarded(e)
    requires LoopFacts(chain, k, recipients, amounts, 0, loop) && Gated(GateAfter(g, pre), loop)
    ensures WalletFacts(chain, k, recipients, amounts, pre + loop + [WalletDone(k)])
    ensures Gated(g, pre + loop + [WalletDone(k)])
  {
    EnteredViews(chain, k, recipients, amounts, pre, loop);
    GatedWithoutSends(g, pre);
    GatedAppend(g, pre, loop);
    Snoc(g, pre + loop, WalletDone(k));
  }

  lemma EnteredViews(chain: Chain, k: nat, recipients: seq<Address>, amounts: (nat, nat) -> nat,
                     pre: seq<Event>, loop: seq<Event>)
    requires Visited(pre) == [k] && Submissions(pre) == [] && forall e | e in pre :: !Guarded(e)
    requires LoopFacts(chain, k, recipients, amounts, 0, loop)
    ensures WalletFacts(chain, k, recipients, amounts, pre + loop)
  {
    CollectNone(loop, VisitOf);
    CollectAppend(pre, loop, VisitOf);
    CollectAppend(pre, loop, SlotOf);
  }

  lemma WalletTurnFacts(net: Network, chain: Chain, k: nat, recipients: seq<Address>, amounts: (nat, nat) -> nat,
                        c: Calls, g: Gate)
    ensures WalletFacts(chain, k, recipients, amounts, Wallet(net, chain, k, recipients, amounts, c).log)
    ensures Gated(g, Wallet(net, chain, k, recipients, amounts, c).log)
  {
    var bq := BalanceQuery(net, c.balance);
    var entered := [Processing(k)] + Pauses(bq.sleeps);
    EnteredFacts(chain, k, recipients, amounts, bq.sleeps, g);
    if bq.result.Rethrown? {
      SkippedWalletFacts(chain, k, recipients, amounts, g, entered, SkipWallet(k, BalanceUnavailable));
    } else {
      var read := entered + [BalanceRead(k, bq.result.value)];
      Snoc(g, entered, BalanceRead(k, bq.result.value));
      if bq.result.value < MIN_RESERVE {
        SkippedWalletFacts(chain, k, recipients, amounts, g, read, SkipWallet(k, BelowReserve));
      } else {
        var c1 := c.(balance := c.balance + bq.calls);
        RecipientsFacts(net, chain, k, recipients, amounts, 0, c1, GateAfter(g, read));
        EnteredWalletFacts(chain, k, recipients, amounts, g, read, Recipients(net, chain, k, recipients, amounts, 0, c1).log);
      }
    }
  }

  /**
   * The initial balance gate of wallet `k`: a wallet whose first balance query
   * fails or reads below the reserve is skipped, having made no call but that
   * query, given no recipient a turn and submitted nothing; any other wallet
   * runs its recipient loop from recipient 0 and ends with `WalletDone`, and its
   * turns and submissions are exactly those of the loop.
   */
  lemma WalletGate(net: Network, chain: Chain, k: nat, recipients: seq<Address>, amounts: (nat, nat) -> nat, c: Calls)
    ensures var w := Wallet(net, chain, k, recipients, amounts, c);
      && (!Solvent(net, c) ==>
            && w.calls == AfterBalance(net, c)
            && Attempted(w.log) == [] && Submissions(w.log) == []
            && w.log[|w.log| - 1] == SkipWallet(k, if BalanceQuery(net, c.balance).result.Rethrown? then BalanceUnavailable else BelowReserve))
      && (Solvent(net, c) ==>
            var loop := Recipients(net, chain, k, recipients, amounts, 0, AfterBalance(net, c));
            && w.calls == loop.calls
            && Attempted(w.log) == Attempted(loop.log) && Submissions(w.log) == Submissions(loop.log)
            && w.log[|w.log| - 1] == WalletDone(k))
  {
    var bq := BalanceQuery(net, c.balance);
    var entered := [Processing(k)] + Pauses(bq.sleeps);
    EnteredFacts(chain, k, recipients, amounts, bq.sleeps, Closed);
    if bq.result.Rethrown? {
      Snoc(Closed, entered, SkipWallet(k, BalanceUnavailable));
    } else {
      var read := entered + [BalanceRead(k, bq.result.value)];
      Snoc(Closed, entered, BalanceRead(k, bq.result.value));
      if bq.result.value < MIN_RESERVE {
        Snoc(Closed, read, SkipWallet(k, BelowReserve));
      } else {
        var loop := Recipients(net, chain, k, recipients, amounts, 0, AfterBalance(net, c));
        CollectAppend(read, loop.log, SlotOf);
        CollectAppend(read, loop.log, AttemptOf);
        Snoc(Closed, read + loop.log, WalletDone(k));
      }
    }
  }

  /** The properties of the log of wallets `k` to `n - 1`. */
  predicate CycleFacts(chain: Chain, n: nat, recipients: seq<Address>, amounts: (nat, nat) -> nat, k: nat, s: seq<Event>)
  {
    && Visited(s) == Range(k, n)
    && (forall e | e in s :: WellBuilt(chain, recipients, amounts, e))
    && (forall x | x in Submissions(s) :: k <= x.wallet < n && x.recipient < |recipients|)
    && Ordered(Submissions(s))
  }

  lemma ContinuedWallets(chain: Chain, n: nat, recipients: seq<Address>, amounts: (nat, nat) -> nat, k: nat, g: Gate,
                         w: seq<Event>, rest: seq<Event>)
    requires k < n
    requires WalletFacts(chain, k, recipients, amounts, w) && Gated(g, w)
    requires CycleFacts(chain, n, recipients, amounts, k + 1, rest) && Gated(GateAfter(g, w), rest)
    ensures CycleFacts(chain, n, recipients, amounts, k, w + rest)
    ensures Gated(g, w + rest)
  {
    CollectAppend(w, rest, VisitOf);
    CollectAppend(w, rest, SlotOf);
    OrderedAppend(Submissions(w), Submissions(rest));
    GatedAppend(g, w, rest);
  }

  /** Wallets `k` to `n - 1` from `c` calls on: each visited once, in key order, and every submission gated and well built. */
  lemma {:induction false} WalletsFacts(net: Network, chain: Chain, n: nat, recipients: seq<Address>,
                                        amounts: (nat, nat) -> nat, k: nat, c: Calls, g: Gate)
    requires k <= n
    ensures CycleFacts(chain, n, recipients, amounts, k, Wallets(net, chain, n, recipients, amounts, k, c).log)
    ensures Gated(g, Wallets(net, chain, n, recipients, amounts, k, c).log)
    decreases n - k
  {
    if k < n {
      var w := Wallet(net, chain, k, recipients, amounts, c);
      WalletTurnFacts(net, chain, k, recipients, amounts, c, g);
      WalletsFacts(net, chain, n, recipients, amounts, k + 1, w.calls, GateAfter(g, w.log));
      ContinuedWallets(chain, n, recipients, amounts, k, g, w.log, Wallets(net, chain, n, recipients, amounts, k + 1, w.calls).log);
    }
  }

  // ---------------------------------------------------------------------------
  // Gas prices

  /** The answers of gas-price calls `from` to `to - 1`, in call order. */
  function FeeAnswers(fees: nat -> Outcome<nat>, from: nat, to: nat): (r: seq<Option<nat>>)
    ensures |r| == if from <= to then to - from else 0
    ensures forall i | 0 <= i < |r| :: (r[i] == Answer(fees(from + i)))
    decreases if from <= to then to - from else 0
  {
    if to <= from then [] else [Answer(fees(from))] + FeeAnswers(fees, from + 1, to)
  }

  lemma {:induction false} FeeAnswersAppend(fees: nat -> Outcome<nat>, a: nat, b: nat, c: nat)
    requires a <= b <= c
    ensures FeeAnswers(fees, a, b) + FeeAnswers(fees, b, c) == FeeAnswers(fees, a, c)
    decreases b - a
  {
    if a < b {
      FeeAnswersAppend(fees, a + 1, b, c);
      assert FeeAnswers(fees, a, b) + FeeAnswers(fees, b, c)
             == [Answer(fees(a))] + (FeeAnswers(fees, a + 1, b) + FeeAnswers(fees, b, c));
    }
  }

  /**
   * The recipient loop from `c` calls on reports, in log order, exactly the
   * answers of the gas-price calls it made: one per turn that got past the
   * balance re-check.
   */
  lemma {:induction false} RecipientsQuotes(net: Network, chain: Chain, k: nat, recipients: seq<Address>,
                                            amounts: (nat, nat) -> nat, j: nat, c: Calls)
    requires j <= |recipients|
    ensures var r := Recipients(net, chain, k, recipients, amounts, j, c);
      c.fee <= r.calls.fee && Quotes(r.log) == FeeAnswers(net.gasPrice, c.fee, r.calls.fee)
    decreases |recipients| - j
  {
    if j < |recipients| {
      var t, next, broke := BalanceTurn(net, chain, k, recipients, amounts, j, c, Closed);
      if !broke {
        var rest := Recipients(net, chain, k, recipients, amounts, j + 1, next);
        RecipientsQuotes(net, chain, k, recipients, amounts, j + 1, next);
        CollectAppend(t, rest.log, QuoteOf);
      }
    }
  }

  /** Wallet `k`'s turn reports exactly the answers of the gas-price calls it made. */
  lemma WalletQuotes(net: Network, chain: Chain, k: nat, recipients: seq<Address>, amounts: (nat, nat) -> nat, c: Calls)
    ensures var w := Wallet(net, chain, k, recipients, amounts, c);
      c.fee <= w.calls.fee && Quotes(w.log) == FeeAnswers(net.gasPrice, c.fee, w.calls.fee)
    ensures var w := Wallet(net, chain, k, recipients, amounts, c);
      if Solvent(net, c) then Quotes(w.log) == Quotes(Recipients(net, chain, k, recipients, amounts, 0, AfterBalance(net, c)).log)
      else Quotes(w.log) == []
  {
    var bq := BalanceQuery(net, c.balance);
    var entered := [Processing(k)] + Pauses(bq.sleeps);
    PausesAreSleeps(bq.sleeps);
    if bq.result.Rethrown? || bq.result.value < MIN_RESERVE {
      CollectNone(Wallet(net, chain, k, recipients, amounts, c).log, QuoteOf);
    } else {
      var read := entered + [BalanceRead(k, bq.result.value)];
      var loop := Recipients(net, chain, k, recipients, amounts, 0, AfterBalance(net, c));
      RecipientsQuotes(net, chain, k, recipients, amounts, 0, AfterBalance(net, c));
      CollectNone(read, QuoteOf);
      CollectNone([WalletDone(k)], QuoteOf);
      CollectAppend(read, loop.log, QuoteOf);
      CollectAppend(read + loop.log, [WalletDone(k)], QuoteOf);
    }
  }

  /** Wallets `k` to `n - 1` report exactly the answers of the gas-price calls they made, in call order. */
  lemma {:induction false} WalletsQuotes(net: Network, chain: Chain, n: nat, recipients: seq<Address>,
                                         amounts: (nat, nat) -> nat, k: nat, c: Calls)
    ensures var r := Wallets(net, chain, n, recipients, amounts, k, c);
      c.fee <= r.calls.fee && Quotes(r.log) == FeeAnswers(net.gasPrice, c.fee, r.calls.fee)
    decreases n - k
  {
    if k < n {
      var w := Wallet(net, chain, k, recipients, amounts, c);
      var rest := Wallets(net, chain, n, recipients, amounts, k + 1, w.calls);
      WalletQuotes(net, chain, k, recipients, amounts, c);
      WalletsQuotes(net, chain, n, recipients, amounts, k + 1, w.calls);
      CollectAppend(w.log, rest.log, QuoteOf);
      FeeAnswersAppend(net.gasPrice, c.fee, w.calls.fee, rest.calls.fee);
    }
  }
}
