/**
 * The vocabulary of one transaction cycle of target.js: addresses, transactions,
 * receipts, and the events the cycle logs; plus the views of an event log that
 * the cycle's guarantees are stated in (which wallets were visited, which
 * (wallet, recipient) slots got a submission, and what balance and gas price
 * were in force when a transaction was submitted).
 */
module Events {
  import opened Rpc
  import opened Retrying

  /** parseUnits("0.001", "ether"): the reserve below which a wallet sends nothing, in wei. */
  const MIN_RESERVE: nat := 1_000_000_000_000_000
  /** Gas limit of every transfer, and the gas units the cost check charges. */
  const GAS_LIMIT: nat := 21000
  /** Pause (milliseconds) between a submission and the receipt poll. */
  const SETTLE_DELAY: nat := 15000

  type Address = string
  type Hash = string
  type PrivateKey = string

  /** The selected network; the symbol and explorer URL only decorate log lines. */
  datatype Chain = Chain(chainId: int, symbol: string, explorer: string)

  /** A mined transaction's receipt; `status == 1` means success. */
  datatype Receipt = Receipt(status: int)

  /** The transaction object built for every send: these fields and no others. */
  datatype Tx = Tx(to: Address, value: nat, gasLimit: nat, gasPrice: nat, chainId: int)

  datatype WalletStop = BalanceUnavailable | BelowReserve

  datatype RecipientSkip = FeeUnavailable | InsufficientFunds | SendFailed(error: RpcError)

  /**
   * One entry of the cycle's log. Wallets and recipients are named by their
   * index in the key list and the recipient list.
   */
  datatype Event =
    | Processing(wallet: nat)                                   // a wallet's turn starts
    | Sleep(ms: nat)                                            // the single control flow pauses
    | BalanceRead(wallet: nat, balance: nat)                    // a balance query resolved
    | SkipWallet(wallet: nat, stop: WalletStop)                 // `continue` to the next key
    | BreakWallet(wallet: nat, stop: WalletStop)                // `break` out of the recipient loop
    | Sending(wallet: nat, recipient: nat)                      // a recipient's turn passed the balance re-check
    | GasPriceRead(wallet: nat, price: nat)                     // getFeeData resolved
    | SkipRecipient(wallet: nat, recipient: nat, skip: RecipientSkip)
    | SendStarted(wallet: nat, recipient: nat, tx: Tx)          // retry(() => wallet.sendTransaction(tx)) begins
    | Submitted(wallet: nat, recipient: nat, tx: Tx, hash: Hash)
    | Confirmed(hash: Hash)
    | Reverted(hash: Hash)
    | Pending(hash: Hash)
    | ReceiptError(hash: Hash, error: RpcError)
    | WalletDone(wallet: nat)                                   // the recipient loop ended

  /** The sleeps a retry wrapper took between failed attempts. */
  function Pauses(n: nat): (s: seq<Event>)
  {
    if n == 0 then [] else [Sleep(RETRY_DELAY)] + Pauses(n - 1)
  }

  lemma {:induction false} PausesAreSleeps(n: nat)
    ensures forall e | e in Pauses(n) :: e == Sleep(RETRY_DELAY)
  {
    if n > 0 {
      PausesAreSleeps(n - 1);
    }
  }

  /** The verdict logged for a receipt poll that resolved to `o`. */
  function Classify(hash: Hash, o: Outcome<Option<Receipt>>): (r: Event)
    ensures r.Confirmed? || r.Reverted? || r.Pending? || r.ReceiptError?
    ensures r.Confirmed? <==> o.Ok? && o.value.Some? && o.value.value.status == 1
    ensures r.Pending? <==> o == Ok(None)
    ensures r.ReceiptError? <==> o.Err?
    ensures r.hash == hash && (r.ReceiptError? ==> r.error == o.error)
  {
    match o
    case Err(e) => ReceiptError(hash, e)
    case Ok(None) => Pending(hash)
    case Ok(Some(receipt)) => if receipt.status == 1 then Confirmed(hash) else Reverted(hash)
  }

  // ---------------------------------------------------------------------------
  // Projections of a log

  /** The values `pick` selects from the events of `s`, in log order. */
  function Collect<U>(s: seq<Event>, pick: Event -> Option<U>): seq<U>
  {
    if s == [] then []
    else (match pick(s[0]) case Some(u) => [u] case None => []) + Collect(s[1..], pick)
  }

  lemma {:induction false} CollectAppend<U>(a: seq<Event>, b: seq<Event>, pick: Event -> Option<U>)
    ensures Collect(a + b, pick) == Collect(a, pick) + Collect(b, pick)
  {
    if a == [] {
      assert a + b == b;
    } else {
      assert (a + b)[0] == a[0];
      assert (a + b)[1..] == a[1..] + b;
      CollectAppend(a[1..], b, pick);
    }
  }

  /** Appending one event adds its image, if any, at the end of the view. */
  lemma CollectSnoc<U>(s: seq<Event>, e: Event, pick: Event -> Option<U>)
    ensures Collect(s + [e], pick) == Collect(s, pick) + (if pick(e).Some? then [pick(e).value] else [])
  {
    assert [e][1..] == [];
    CollectAppend(s, [e], pick);
  }

  /** The events of `n` retry pauses contribute nothing to a view that ignores sleeps. */
  lemma CollectPauses<U>(s: seq<Event>, n: nat, pick: Event -> Option<U>)
    requires pick(Sleep(RETRY_DELAY)).None?
    ensures Collect(s + Pauses(n), pick) == Collect(s, pick)
  {
    PausesAreSleeps(n);
    CollectNone(Pauses(n), pick);
    CollectAppend(s, Pauses(n), pick);
  }

  lemma {:induction false} CollectNone<U>(s: seq<Event>, pick: Event -> Option<U>)
    requires forall e | e in s :: pick(e).None?
    ensures Collect(s, pick) == []
  {
    if s != [] {
      assert s[0] in s;
      CollectNone(s[1..], pick);
    }
  }

  function VisitOf(e: Event): Option<nat>
  {
    if e.Processing? then Some(e.wallet) else None
  }

  /** The wallets whose turn started, in log order. */
  function Visited(s: seq<Event>): seq<nat>
  {
    Collect(s, VisitOf)
  }

  /** A (wallet, recipient) pair of indices. */
  datatype Slot = Slot(wallet: nat, recipient: nat)

  function SlotOf(e: Event): Option<Slot>
  {
    if e.Submitted? then Some(Slot(e.wallet, e.recipient)) else None
  }

  /** The (wallet, recipient) slots that got a submission, in log order. */
  function Submissions(s: seq<Event>): seq<Slot>
  {
    Collect(s, SlotOf)
  }

  function QuoteOf(e: Event): Option<Option<nat>>
  {
    if e.GasPriceRead? then Some(Some(e.price))
    else if e.SkipRecipient? && e.skip == FeeUnavailable then Some(None)
    else None
  }

  /** The answers of the gas-price calls the log reports, in log order: the price, or `None` for a failed fetch. */
  function Quotes(s: seq<Event>): seq<Option<nat>>
  {
    Collect(s, QuoteOf)
  }

  function AttemptOf(e: Event): Option<nat>
  {
    if e.Sending? then Some(e.recipient) else None
  }

  /** The recipients whose turn got past the balance re-check, in log order. */
  function Attempted(s: seq<Event>): seq<nat>
  {
    Collect(s, AttemptOf)
  }

  /** The log ends with a `break` out of a recipient loop. */
  predicate EndsInBreak(s: seq<Event>)
  {
    |s| > 0 && s[|s| - 1].BreakWallet?
  }

  /** A `break` out of a recipient loop can only be the last event. */
  predicate BreakLast(s: seq<Event>)
  {
    forall i | 0 <= i < |s| && s[i].BreakWallet? :: i == |s| - 1
  }

  lemma BreakLastAppend(a: seq<Event>, b: seq<Event>)
    requires forall e | e in a :: !e.BreakWallet?
    requires BreakLast(b)
    ensures BreakLast(a + b)
    ensures EndsInBreak(a + b) <==> EndsInBreak(b)
  {
    forall i | 0 <= i < |a| ensures !(a + b)[i].BreakWallet? {
      assert (a + b)[i] == a[i] && a[i] in a;
    }
    forall i | |a| <= i < |a + b| && (a + b)[i].BreakWallet? ensures i == |a + b| - 1 {
      assert (a + b)[i] == b[i - |a|];
    }
    if b == [] {
      assert a + b == a;
      if |a| > 0 {
        assert a[|a| - 1] in a;
      }
    }
  }

  /** Lexicographic order: key order first, then recipient order. */
  predicate Precedes(x: Slot, y: Slot)
  {
    x.wallet < y.wallet || (x.wallet == y.wallet && x.recipient < y.recipient)
  }

  predicate Ordered(slots: seq<Slot>)
  {
    forall i, j :: 0 <= i < j < |slots| ==> Precedes(slots[i], slots[j])
  }

  lemma OrderedAppend(a: seq<Slot>, b: seq<Slot>)
    requires Ordered(a) && Ordered(b)
    requires forall x, y | x in a && y in b :: Precedes(x, y)
    ensures Ordered(a + b)
  {
    forall i, j | 0 <= i < j < |a + b| ensures Precedes((a + b)[i], (a + b)[j]) {
      if j < |a| {
        assert (a + b)[i] == a[i] && (a + b)[j] == a[j];
      } else if i >= |a| {
        assert (a + b)[i] == b[i - |a|] && (a + b)[j] == b[j - |a|];
      } else {
        assert (a + b)[i] == a[i] && (a + b)[j] == b[j - |a|];
        assert a[i] in a && b[j - |a|] in b;
      }
    }
  }

  /** [lo, lo + 1, ..., hi - 1] */
  function Range(lo: nat, hi: nat): (r: seq<nat>)
    decreases hi - lo
  {
    if lo >= hi then [] else [lo] + Range(lo + 1, hi)
  }

  // ---------------------------------------------------------------------------
  // The gate in force at each point of a log

  datatype Reading = Reading(wallet: nat, balance: nat)

  /**
   * What the log has established since the last wallet start or send: the
   * latest balance reading, the latest gas price, and the send in progress. A
   * send uses the reading and the price up, so each send needs readings of its
   * own; a submission closes the send it reports.
   */
  datatype Gate = Gate(reading: Option<Reading>, price: Option<nat>, started: Option<Event>)

  const Closed: Gate := Gate(None, None, None)

  function Observe(g: Gate, e: Event): Gate
  {
    match e
    case Processing(_) => Closed
    case SendStarted(_, _, _) => Gate(None, None, Some(e))
    case Submitted(_, _, _, _) => Closed
    case BalanceRead(w, b) => g.(reading := Some(Reading(w, b)))
    case GasPriceRead(_, p) => g.(price := Some(p))
    case _ => g
  }

  function GateAfter(g: Gate, s: seq<Event>): Gate
    decreases |s|
  {
    if s == [] then g else GateAfter(Observe(g, s[0]), s[1..])
  }

  /** The events the gate has to cover: the start of a send, and a submission. */
  predicate Guarded(e: Event)
  {
    e.SendStarted? || e.Submitted?
  }

  /**
   * Event `e` is covered by gate `g`. A send may start only when a balance of
   * the same wallet was read and a gas price fetched since the previous send,
   * the balance is at least the reserve, and it pays the value plus 21000 units
   * of that price. A submission reports the send in progress, of the same
   * transaction to the same recipient.
   */
  predicate Admits(g: Gate, e: Event)
  {
    if e.SendStarted? then
      && g.reading.Some?
      && g.reading.value.wallet == e.wallet
      && g.price == Some(e.tx.gasPrice)
      && g.reading.value.balance >= MIN_RESERVE
      && g.reading.value.balance >= e.tx.value + GAS_LIMIT * e.tx.gasPrice
    else
      e.Submitted? && g.started == Some(SendStarted(e.wallet, e.recipient, e.tx))
  }

  /** Starting from gate `g`, every send and every submission in `s` is covered by the gate in force just before it. */
  predicate Gated(g: Gate, s: seq<Event>)
  {
    forall i :: 0 <= i < |s| && Guarded(s[i]) ==> Admits(GateAfter(g, s[..i]), s[i])
  }

  lemma {:induction false} GateAfterAppend(g: Gate, a: seq<Event>, b: seq<Event>)
    ensures GateAfter(g, a + b) == GateAfter(GateAfter(g, a), b)
    decreases |a|
  {
    if a == [] {
      assert a + b == b;
    } else {
      assert (a + b)[0] == a[0];
      assert (a + b)[1..] == a[1..] + b;
      GateAfterAppend(Observe(g, a[0]), a[1..], b);
    }
  }

  lemma {:induction false} GateAfterPauses(g: Gate, n: nat)
    ensures GateAfter(g, Pauses(n)) == g
  {
    if n > 0 {
      assert Pauses(n)[0] == Sleep(RETRY_DELAY);
      assert Pauses(n)[1..] == Pauses(n - 1);
      GateAfterPauses(g, n - 1);
    }
  }

  /** Appending one event: every view gains that event's image and the gate takes one more step. */
  lemma Snoc(g: Gate, s: seq<Event>, e: Event)
    ensures Visited(s + [e]) == Visited(s) + (if e.Processing? then [e.wallet] else [])
    ensures Submissions(s + [e]) == Submissions(s) + (if e.Submitted? then [Slot(e.wallet, e.recipient)] else [])
    ensures Attempted(s + [e]) == Attempted(s) + (if e.Sending? then [e.recipient] else [])
    ensures Quotes(s + [e]) == Quotes(s) + (if QuoteOf(e).Some? then [QuoteOf(e).value] else [])
    ensures GateAfter(g, s + [e]) == Observe(GateAfter(g, s), e)
    ensures Gated(g, s) && (Guarded(e) ==> Admits(GateAfter(g, s), e)) ==> Gated(g, s + [e])
  {
    SnocViews(s, e);
    SnocGate(g, s, e);
  }

  lemma SnocViews(s: seq<Event>, e: Event)
    ensures Visited(s + [e]) == Visited(s) + (if e.Processing? then [e.wallet] else [])
    ensures Submissions(s + [e]) == Submissions(s) + (if e.Submitted? then [Slot(e.wallet, e.recipient)] else [])
    ensures Attempted(s + [e]) == Attempted(s) + (if e.Sending? then [e.recipient] else [])
    ensures Quotes(s + [e]) == Quotes(s) + (if QuoteOf(e).Some? then [QuoteOf(e).value] else [])
  {
    CollectSnoc(s, e, VisitOf);
    CollectSnoc(s, e, SlotOf);
    CollectSnoc(s, e, AttemptOf);
    CollectSnoc(s, e, QuoteOf);
  }

  lemma SnocGate(g: Gate, s: seq<Event>, e: Event)
    ensures GateAfter(g, s + [e]) == Observe(GateAfter(g, s), e)
    ensures Gated(g, s) && (Guarded(e) ==> Admits(GateAfter(g, s), e)) ==> Gated(g, s + [e])
  {
    assert [e][1..] == [];
    GateAfterAppend(g, s, [e]);
    if Gated(g, s) && (Guarded(e) ==> Admits(GateAfter(g, s), e)) {
      forall i | 0 <= i < |s + [e]| && Guarded((s + [e])[i])
        ensures Admits(GateAfter(g, (s + [e])[..i]), (s + [e])[i])
      {
        if i < |s| {
          assert (s + [e])[..i] == s[..i];
        } else {
          assert (s + [e])[..i] == s;
        }
      }
    }
  }

  /** Appending retry pauses changes no view and no gate. */
  lemma SnocPauses(g: Gate, s: seq<Event>, n: nat)
    ensures Visited(s + Pauses(n)) == Visited(s)
    ensures Submissions(s + Pauses(n)) == Submissions(s)
    ensures Attempted(s + Pauses(n)) == Attempted(s)
    ensures Quotes(s + Pauses(n)) == Quotes(s)
    ensures GateAfter(g, s + Pauses(n)) == GateAfter(g, s)
    ensures Gated(g, s) ==> Gated(g, s + Pauses(n))
    ensures forall e | e in s + Pauses(n) :: e in s || e == Sleep(RETRY_DELAY)
  {
    PausesAreSleeps(n);
    CollectPauses(s, n, VisitOf);
    CollectPauses(s, n, SlotOf);
    CollectPauses(s, n, AttemptOf);
    CollectPauses(s, n, QuoteOf);
    GateAfterAppend(g, s, Pauses(n));
    GateAfterPauses(GateAfter(g, s), n);
    if Gated(g, s) {
      GatedWithoutSends(GateAfter(g, s), Pauses(n));
      GatedAppend(g, s, Pauses(n));
    }
  }

  lemma GatedWithoutSends(g: Gate, s: seq<Event>)
    requires forall e | e in s :: !Guarded(e)
    ensures Gated(g, s)
  {
    forall i | 0 <= i < |s| ensures !Guarded(s[i]) {
      assert s[i] in s;
    }
  }

  lemma GatedAppend(g: Gate, a: seq<Event>, b: seq<Event>)
    requires Gated(g, a) && Gated(GateAfter(g, a), b)
    ensures Gated(g, a + b)
  {
    forall i | 0 <= i < |a + b| && Guarded((a + b)[i])
      ensures Admits(GateAfter(g, (a + b)[..i]), (a + b)[i])
    {
      if i < |a| {
        assert (a + b)[..i] == a[..i];
        assert (a + b)[i] == a[i];
      } else {
        var m := i - |a|;
        assert (a + b)[..i] == a + b[..m];
        assert (a + b)[i] == b[m];
        GateAfterAppend(g, a, b[..m]);
      }
    }
  }
}
