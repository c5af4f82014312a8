/** When and how much to move out of custody (`get_balance_amt`), and one rebalance from start to end. */
module RebalanceFlow {
  import opened Wrappers
  import opened Amounts
  import opened Config
  import opened Metadata
  import opened Store

  // ----- The decision

  /** What the lightning wallet is sure to receive: its estimate, less a safety margin. */
  function Receivable(tunables: Tunables, estimate: Amount): Amount {
    estimate.SaturatingSub(tunables.rebalanceMin)
  }

  /** Leaving what lightning cannot receive in custody would exceed the limit. */
  predicate MustMoveAll(tunables: Tunables, estimate: Amount, balance: Amount) {
    balance.msats > Receivable(tunables, estimate).msats + tunables.custodialBalanceLimit.msats
  }

  /** `get_balance_amt`. */
  function TransferAmount(tunables: Tunables, estimate: Amount, balance: Amount): Option<Amount> {
    var receivable := Receivable(tunables, estimate);
    var first := if receivable.msats <= balance.msats then receivable else balance;
    var transfer :=
      if balance.SaturatingSub(first).msats > tunables.custodialBalanceLimit.msats then balance else first;
    if transfer.msats > tunables.rebalanceMin.msats then Some(transfer) else None
  }

  /** A chosen transfer is worth it, can be paid, and leaves custody within its limit. */
  lemma TransferBounds(tunables: Tunables, estimate: Amount, balance: Amount)
    ensures match TransferAmount(tunables, estimate, balance)
      case Some(transfer) =>
        && tunables.rebalanceMin.msats < transfer.msats <= balance.msats
        && balance.msats - transfer.msats <= tunables.custodialBalanceLimit.msats
        && (MustMoveAll(tunables, estimate, balance) ==> transfer == balance)
        && (!MustMoveAll(tunables, estimate, balance) ==> transfer.msats <= Receivable(tunables, estimate).msats)
      case None =>
        balance.msats <= tunables.custodialBalanceLimit.msats + tunables.rebalanceMin.msats
  {
  }

  /** A transfer is refused exactly when neither the receivable part nor a forced transfer is worth it. */
  lemma RefusedExactly(tunables: Tunables, estimate: Amount, balance: Amount)
    ensures TransferAmount(tunables, estimate, balance).None? <==>
            || balance.msats <= tunables.rebalanceMin.msats
            || (Receivable(tunables, estimate).msats <= tunables.rebalanceMin.msats &&
                !MustMoveAll(tunables, estimate, balance))
  {
  }

  /**
   * How much a transfer is, in milli-satoshis: everything if lightning cannot receive enough to leave custody
   * within its limit, and else what lightning can receive, or everything if that is less.
   */
  ghost predicate Moves(tunables: Tunables, estimate: Amount, balance: Amount, msats: int) {
    var receivable :=
      if estimate.msats >= tunables.rebalanceMin.msats then estimate.msats - tunables.rebalanceMin.msats else 0;
    if balance.msats - receivable > tunables.custodialBalanceLimit.msats then msats == balance.msats
    else msats <= receivable && msats <= balance.msats && (msats == receivable || msats == balance.msats)
  }

  /** A transfer is exactly this much, and there is one exactly when it exceeds the minimum. */
  lemma TransferExactly(tunables: Tunables, estimate: Amount, balance: Amount, msats: int)
    requires Moves(tunables, estimate, balance, msats)
    ensures TransferAmount(tunables, estimate, balance).Some? <==> msats > tunables.rebalanceMin.msats
    ensures TransferAmount(tunables, estimate, balance).Some? ==>
              TransferAmount(tunables, estimate, balance).value.msats == msats
    ensures MustMoveAll(tunables, estimate, balance) <==>
            && balance.msats > tunables.custodialBalanceLimit.msats
            && balance.msats - estimate.msats + tunables.rebalanceMin.msats > tunables.custodialBalanceLimit.msats
  {
  }

  lemma SomeMove(tunables: Tunables, estimate: Amount, balance: Amount) returns (msats: int)
    ensures Moves(tunables, estimate, balance, msats)
    ensures TransferAmount(tunables, estimate, balance).Some? ==>
              TransferAmount(tunables, estimate, balance).value.msats == msats > tunables.rebalanceMin.msats
  {
    var receivable := Receivable(tunables, estimate).msats;
    var everything := MustMoveAll(tunables, estimate, balance) || balance.msats <= receivable;
    msats := if everything then balance.msats else receivable;
    TransferExactly(tunables, estimate, balance, msats);
  }

  /** With the defaults custody keeps at most 100,000 satoshis after a transfer, and 5,000 more before one. */
  lemma DefaultsKeepCustodySmall(estimate: Amount, balance: Amount)
    ensures match TransferAmount(DEFAULT_TUNABLES, estimate, balance)
      case Some(transfer) => transfer.msats > 5_000_000 && balance.msats - transfer.msats <= 100_000_000
      case None => balance.msats <= 105_000_000
  {
    TransferBounds(DEFAULT_TUNABLES, estimate, balance);
  }

  /** `get_bolt11_invoice` opens a channel on the fly when it estimates that it cannot receive the amount. */
  predicate UsesJitChannel(estimate: Amount, amount: Amount) {
    !(estimate.msats >= amount.msats)
  }

  /** With the same estimate, a rebalance pays for a channel only when forced to move everything. */
  lemma JitOnlyWhenForced(tunables: Tunables, estimate: Amount, balance: Amount)
    requires TransferAmount(tunables, estimate, balance).Some?
    ensures var transfer := TransferAmount(tunables, estimate, balance).value;
      && (UsesJitChannel(estimate, transfer) <==>
          MustMoveAll(tunables, estimate, balance) && balance.msats > estimate.msats)
      && (UsesJitChannel(estimate, transfer) <==> estimate.msats < transfer.msats)
      && (UsesJitChannel(estimate, transfer) ==> transfer == balance)
  {
  }

  /** Custodial balances around a series of rebalances, each with its own estimate; fees only lower them. */
  ghost predicate RebalanceSeries(tunables: Tunables, balances: seq<Amount>, estimates: seq<Amount>) {
    && |balances| == |estimates| + 1
    && (forall i :: 0 <= i < |estimates| ==>
          TransferAmount(tunables, estimates[i], balances[i]).Some? &&
          balances[i + 1].msats <= balances[i].msats - TransferAmount(tunables, estimates[i], balances[i]).value.msats)
  }

  lemma {:induction false} FallingSeries(balances: seq<Amount>, drop: nat, n: nat)
    requires n < |balances|
    requires forall i :: 0 <= i < n ==> balances[i + 1].msats <= balances[i].msats - drop
    ensures n * drop + balances[n].msats <= balances[0].msats
  {
    if n == 0 {
    } else {
      FallingSeries(balances, drop, n - 1);
      assert n * drop == (n - 1) * drop + drop;
    }
  }

  /** Without deposits there are only so many rebalances. */
  lemma SeriesBounded(tunables: Tunables, balances: seq<Amount>, estimates: seq<Amount>)
    requires RebalanceSeries(tunables, balances, estimates)
    ensures |estimates| * (tunables.rebalanceMin.msats + 1) <= balances[0].msats
  {
    forall i | 0 <= i < |estimates|
      ensures balances[i + 1].msats <= balances[i].msats - (tunables.rebalanceMin.msats + 1)
    {
      TransferBounds(tunables, estimates[i], balances[i]);
    }
    FallingSeries(balances, tunables.rebalanceMin.msats + 1, |estimates|);
  }

  // ----- Waiting for the money to arrive

  datatype Receipt = Arrived(id: Bytes32) | Lost | StillWaiting

  predicate Matches(payment: LightningPayment, hash: Bytes32) {
    payment.kind.Bolt11? && payment.kind.hash == hash
  }

  /** What one look at the payment list says: only the first matching entry counts. */
  function Look(payments: seq<LightningPayment>, hash: Bytes32): Receipt {
    if payments == [] then StillWaiting
    else if !Matches(payments[0], hash) then Look(payments[1..], hash)
    else
      match payments[0].status
      case Completed => Arrived(payments[0].id)
      case Pending => StillWaiting
      case Failed => Lost
  }

  /** One look after another, until one of them decides. */
  function Awaited(looks: seq<seq<LightningPayment>>, hash: Bytes32): Receipt {
    if looks == [] then StillWaiting
    else if Look(looks[0], hash) != StillWaiting then Look(looks[0], hash)
    else Awaited(looks[1..], hash)
  }

  /** The entry at `k` is the one that a look goes by. */
  ghost predicate FirstMatch(payments: seq<LightningPayment>, hash: Bytes32, k: nat) {
    k < |payments| && Matches(payments[k], hash) && forall i :: 0 <= i < k ==> !Matches(payments[i], hash)
  }

  /** The first match is missing or pending. */
  ghost predicate Undecided(payments: seq<LightningPayment>, hash: Bytes32) {
    forall k: nat :: FirstMatch(payments, hash, k) ==> payments[k].status == Pending
  }

  lemma FirstMatchTail(payments: seq<LightningPayment>, hash: Bytes32, k: nat)
    requires payments != [] && !Matches(payments[0], hash)
    ensures FirstMatch(payments, hash, k) <==> k > 0 && FirstMatch(payments[1..], hash, k - 1)
  {
    if k > 0 && FirstMatch(payments[1..], hash, k - 1) {
      forall i | 0 <= i < k
        ensures !Matches(payments[i], hash)
      {
        assert i > 0 ==> payments[i] == payments[1..][i - 1];
      }
    }
  }

  /** A look is decided by the status of the first match, if there is one. */
  lemma {:induction false} LookExactly(payments: seq<LightningPayment>, hash: Bytes32)
    ensures Look(payments, hash) == StillWaiting <==> Undecided(payments, hash)
    ensures Look(payments, hash) == Lost <==>
              exists k: nat :: FirstMatch(payments, hash, k) && payments[k].status == Failed
    ensures forall id :: Look(payments, hash) == Arrived(id) <==>
              exists k: nat :: FirstMatch(payments, hash, k) && payments[k].status == Completed && payments[k].id == id
  {
    if payments == [] {
    } else if Matches(payments[0], hash) {
      assert FirstMatch(payments, hash, 0);
      assert forall k: nat :: FirstMatch(payments, hash, k) ==> k == 0;
    } else {
      LookExactly(payments[1..], hash);
      forall k: nat
        ensures FirstMatch(payments, hash, k) <==> k > 0 && FirstMatch(payments[1..], hash, k - 1)
      {
        FirstMatchTail(payments, hash, k);
      }
      forall k: nat | FirstMatch(payments[1..], hash, k)
        ensures FirstMatch(payments, hash, k + 1) && payments[k + 1] == payments[1..][k]
      {
      }
    }
  }

  ghost predicate FirstDecided(looks: seq<seq<LightningPayment>>, hash: Bytes32, n: nat) {
    n < |looks| && !Undecided(looks[n], hash) && forall i :: 0 <= i < n ==> Undecided(looks[i], hash)
  }

  /** The wait ends with the first look that is decided, and goes on exactly as long as none is. */
  lemma {:induction false} AwaitedExactly(looks: seq<seq<LightningPayment>>, hash: Bytes32)
    ensures Awaited(looks, hash) == StillWaiting <==> forall i :: 0 <= i < |looks| ==> Undecided(looks[i], hash)
    ensures forall n: nat :: FirstDecided(looks, hash, n) ==>
              Awaited(looks, hash) == Look(looks[n], hash)
  {
    if looks == [] {
    } else {
      LookExactly(looks[0], hash);
      AwaitedExactly(looks[1..], hash);
      assert forall i :: 1 <= i < |looks| ==> looks[i] == looks[1..][i - 1];
      if Undecided(looks[0], hash) {
        forall n: nat | FirstDecided(looks, hash, n)
          ensures Awaited(looks, hash) == Look(looks[n], hash)
        {
          assert forall i :: 0 <= i < n - 1 ==> looks[1..][i] == looks[i + 1];
          assert looks[1..][n - 1] == looks[n];
        }
      }
    }
  }

  // ----- Channels opened on the fly

  /** The entry of the rebalance's own invoice, whichever way the money comes. */
  predicate Carries(payment: LightningPayment, hash: Bytes32) {
    (payment.kind.Bolt11? || payment.kind.Bolt11Jit?) && payment.kind.hash == hash
  }

  /** What the node promises: just the payments of invoices over a channel opened on the fly are listed as such. */
  ghost predicate KindsFollow(jit: bool, looks: seq<seq<LightningPayment>>, hash: Bytes32) {
    forall i, p :: 0 <= i < |looks| && p in looks[i] && Carries(p, hash) ==> p.kind.Bolt11Jit? == jit
  }

  ghost predicate FirstCarrier(payments: seq<LightningPayment>, hash: Bytes32, k: nat) {
    k < |payments| && Carries(payments[k], hash) && forall i :: 0 <= i < k ==> !Carries(payments[i], hash)
  }

  ghost predicate NotYetIn(payments: seq<LightningPayment>, hash: Bytes32) {
    forall k: nat :: FirstCarrier(payments, hash, k) ==> payments[k].status == Pending
  }

  ghost predicate ComeIn(payments: seq<LightningPayment>, hash: Bytes32) {
    exists k: nat :: FirstCarrier(payments, hash, k) && payments[k].status == Completed
  }

  /** Some look finds that the money has come in, and no earlier one finds anything else than that it has not. */
  ghost predicate MoneyArrives(looks: seq<seq<LightningPayment>>, hash: Bytes32) {
    exists n: nat :: n < |looks| && ComeIn(looks[n], hash) && forall i :: 0 <= i < n ==> NotYetIn(looks[i], hash)
  }

  /** Over a channel opened on the fly nothing is ever found; otherwise the money is. */
  lemma ArrivalNoticedExactly(jit: bool, looks: seq<seq<LightningPayment>>, hash: Bytes32)
    requires KindsFollow(jit, looks, hash)
    ensures jit ==> Awaited(looks, hash) == StillWaiting
    ensures MoneyArrives(looks, hash) ==> (Awaited(looks, hash).Arrived? <==> !jit)
  {
    AwaitedExactly(looks, hash);
    forall i, k: nat | 0 <= i < |looks| && k < |looks[i]|
      ensures Matches(looks[i][k], hash) <==> Carries(looks[i][k], hash) && !jit
    {
      assert looks[i][k] in looks[i];
    }
    if !jit && MoneyArrives(looks, hash) {
      var n: nat :| n < |looks| && ComeIn(looks[n], hash) && forall i :: 0 <= i < n ==> NotYetIn(looks[i], hash);
      forall i, k: nat | 0 <= i < |looks|
        ensures FirstMatch(looks[i], hash, k) <==> FirstCarrier(looks[i], hash, k)
      {
      }
      var k: nat :| FirstCarrier(looks[n], hash, k) && looks[n][k].status == Completed;
      assert FirstMatch(looks[n], hash, k);
      LookExactly(looks[n], hash);
      assert Look(looks[n], hash) == Arrived(looks[n][k].id);
    }
  }

  /** The waiting loop, over the payment lists that it gets to see. */
  method AwaitReceipt(looks: seq<seq<LightningPayment>>, hash: Bytes32) returns (receipt: Receipt)
    ensures receipt == Awaited(looks, hash)
  {
    receipt := StillWaiting;
    var look := 0;
    while receipt.StillWaiting? && look < |looks|
      invariant 0 <= look <= |looks|
      invariant receipt.StillWaiting? ==> Awaited(looks, hash) == Awaited(looks[look..], hash)
      invariant !receipt.StillWaiting? ==> Awaited(looks, hash) == receipt
    {
      var payments := looks[look];
      var next := 0;
      while next < |payments| && !Matches(payments[next], hash)
        invariant 0 <= next <= |payments|
        invariant Look(payments, hash) == Look(payments[next..], hash)
      {
        next := next + 1;
      }
      if next < |payments| {
        match payments[next].status
        case Completed => receipt := Arrived(payments[next].id);
        case Pending =>
        case Failed => receipt := Lost;
      }
      assert looks[look..][1..] == looks[look + 1..];
      look := look + 1;
    }
  }

  // ----- One rebalance

  datatype Outcome =
    | NotNeeded
    | NoInvoice
    | NotPaid
    | ReceiptLost
    | Waiting
    | TriggerNotPlain
    | Done(amount: Amount, custodialId: CustodialPaymentId, lightningId: Bytes32)

  /** The records that a completed rebalance leaves behind. */
  function Recorded(c: Codec, s: StoreState, trigger: PaymentId, custodialId: CustodialPaymentId, lightningId: Bytes32,
                    now: nat)
    : StoreState
  {
    var leg := TxMetadata(now, TransferToNonCustodial(custodialId, lightningId, trigger));
    s.Mark(c, trigger).Set(c, Custodial(custodialId), leg).Set(c, Lightning(lightningId), leg)
  }

  /** The trigger is marked, both legs are under their own ids, and nothing else has changed. */
  lemma RecordedMeans(c: Codec, s: StoreState, trigger: PaymentId, custodialId: CustodialPaymentId,
                      lightningId: Bytes32, now: nat)
    requires s.HasPayment(trigger) && Custodial(custodialId) !in s.mem && Lightning(lightningId) !in s.mem
    ensures var t := Recorded(c, s, trigger, custodialId, lightningId, now);
      && t.HasTrigger(trigger)
      && t.mem[trigger].time == s.mem[trigger].time && t.mem[trigger].ty.ty == s.mem[trigger].ty.ty
      && t.HasTransfer(Custodial(custodialId)) && t.HasTransfer(Lightning(lightningId))
      && t.mem[Custodial(custodialId)] == t.mem[Lightning(lightningId)]
      && t.mem[Custodial(custodialId)].ty == TransferToNonCustodial(custodialId, lightningId, trigger)
      && t.mem.Keys == s.mem.Keys + {Custodial(custodialId), Lightning(lightningId)}
      && (forall id :: id in s.mem && id != trigger ==> t.mem[id] == s.mem[id])
  {
  }

  /** A completed rebalance has moved the right amount, by the payment that custody made for its invoice. */
  ghost predicate CompletedRight(outcome: Outcome, tunables: Tunables, estimate: Amount, balance: Amount,
                                 invoice: Amount -> Option<Bytes32>, paid: Amount -> Option<CustodialPaymentId>,
                                 looks: seq<seq<LightningPayment>>)
    requires outcome.Done?
  {
    && Moves(tunables, estimate, balance, outcome.amount.msats) && outcome.amount.msats > tunables.rebalanceMin.msats
    && invoice(outcome.amount).Some? && paid(outcome.amount) == Some(outcome.custodialId)
    && Awaited(looks, invoice(outcome.amount).value) == Arrived(outcome.lightningId)
  }

  /** What the services' answers make of a rebalance. */
  function OutcomeOf(plain: bool, transfer: Option<Amount>, invoice: Amount -> Option<Bytes32>,
                     paid: Amount -> Option<CustodialPaymentId>, looks: seq<seq<LightningPayment>>): Outcome
  {
    if transfer.None? then NotNeeded
    else if invoice(transfer.value).None? then NoInvoice
    else if paid(transfer.value).None? then NotPaid
    else
      match Awaited(looks, invoice(transfer.value).value)
      case Lost => ReceiptLost
      case StillWaiting => Waiting
      case Arrived(id) => if plain then Done(transfer.value, paid(transfer.value).value, id) else TriggerNotPlain
  }

  /**
   * Which rebalances end: if the money arrives, those whose invoice needs no channel opened on the fly.
   * `later` is the estimate when the invoice is made. With an unchanged estimate the condition is one on
   * the balance and the estimate alone.
   */
  lemma EndsExactly(tunables: Tunables, estimate: Amount, balance: Amount, later: Amount,
                    invoice: Amount -> Option<Bytes32>, paid: Amount -> Option<CustodialPaymentId>,
                    looks: seq<seq<LightningPayment>>)
    requires TransferAmount(tunables, estimate, balance).Some?
    requires var transfer := TransferAmount(tunables, estimate, balance).value;
      && invoice(transfer).Some? && paid(transfer).Some?
      && KindsFollow(UsesJitChannel(later, transfer), looks, invoice(transfer).value)
      && MoneyArrives(looks, invoice(transfer).value)
    ensures var transfer := TransferAmount(tunables, estimate, balance);
      var outcome := OutcomeOf(true, transfer, invoice, paid, looks);
      && (outcome.Done? <==> !UsesJitChannel(later, transfer.value))
      && (outcome == Waiting <==> UsesJitChannel(later, transfer.value))
      && (later == estimate ==>
            (outcome.Done? <==> !(MustMoveAll(tunables, estimate, balance) && balance.msats > estimate.msats)))
  {
    var transfer := TransferAmount(tunables, estimate, balance).value;
    ArrivalNoticedExactly(UsesJitChannel(later, transfer), looks, invoice(transfer).value);
    if later == estimate {
      JitOnlyWhenForced(tunables, estimate, balance);
    }
  }

  /**
   * For example, with no channel at all and twice the custodial limit: the whole balance is paid to an
   * invoice over a channel opened on the fly, the payment completes, and the wait goes on.
   */
  lemma JitArrivalUnnoticed(hash: Bytes32, id: Bytes32, custodialId: CustodialPaymentId)
    ensures var estimate, balance := Amount(0), FromSats(200_000);
      var arrived := LightningPayment(id, Bolt11Jit(hash, None), Completed, false, Some(balance.msats), 0);
      && TransferAmount(DEFAULT_TUNABLES, estimate, balance) == Some(balance)
      && UsesJitChannel(estimate, balance)
      && MoneyArrives([[arrived]], hash)
      && OutcomeOf(true, Some(balance), _ => Some(hash), _ => Some(custodialId), [[arrived]]) == Waiting
  {
    var arrived := LightningPayment(id, Bolt11Jit(hash, None), Completed, false, Some(FromSats(200_000).msats), 0);
    var looks := [[arrived]];
    assert FirstCarrier(looks[0], hash, 0);
    assert ComeIn(looks[0], hash);
    assert looks[1..] == [] && [arrived][1..] == [];
    assert Look([arrived], hash) == StillWaiting;
    assert Awaited(looks, hash) == Awaited(looks[1..], hash);
  }

  /** It is completed exactly when all of that is so and the trigger is still plain. */
  lemma OutcomeExactly(plain: bool, tunables: Tunables, estimate: Amount, balance: Amount,
                       invoice: Amount -> Option<Bytes32>, paid: Amount -> Option<CustodialPaymentId>,
                       looks: seq<seq<LightningPayment>>, msats: int)
    requires Moves(tunables, estimate, balance, msats)
    ensures var outcome := OutcomeOf(plain, TransferAmount(tunables, estimate, balance), invoice, paid, looks);
      && (outcome.Done? ==>
            plain && outcome.amount.msats == msats &&
            CompletedRight(outcome, tunables, estimate, balance, invoice, paid, looks))
      && (outcome.NotNeeded? <==> msats <= tunables.rebalanceMin.msats)
      && (forall amount: Amount | amount.msats == msats > tunables.rebalanceMin.msats ::
            && (outcome.NoInvoice? <==> invoice(amount).None?)
            && (outcome.NotPaid? <==> invoice(amount).Some? && paid(amount).None?)
            && (invoice(amount).Some? && paid(amount).Some? ==>
                  var receipt := Awaited(looks, invoice(amount).value);
                  && (outcome.ReceiptLost? <==> receipt.Lost?)
                  && (outcome.Waiting? <==> receipt.StillWaiting?)
                  && (outcome.TriggerNotPlain? <==> receipt.Arrived? && !plain)
                  && (outcome.Done? <==> receipt.Arrived? && plain)))
  {
    TransferExactly(tunables, estimate, balance, msats);
  }

  /**
   * `do_custodial_rebalance` when nobody interferes. The invoice's hash, the custodial payment and the
   * payment lists come from the services. Only a completed rebalance writes anything: where the source
   * panics because the trigger is not a plain payment, the store is as it was.
   */
  method DoCustodialRebalance(store: TxMetadataStore, trigger: PaymentId, tunables: Tunables, estimate: Amount,
                              balance: Amount, invoice: Amount -> Option<Bytes32>,
                              paid: Amount -> Option<CustodialPaymentId>,
                              looks: seq<seq<LightningPayment>>, now: nat) returns (outcome: Outcome)
    requires store.Valid()
    modifies store, store.store
    ensures store.Valid()
    ensures outcome == OutcomeOf(old(store.State()).HasPayment(trigger), TransferAmount(tunables, estimate, balance),
                                 invoice, paid, looks)
    ensures store.State() ==
            if outcome.Done? then
              Recorded(store.codec, old(store.State()), trigger, outcome.custodialId, outcome.lightningId, now)
            else old(store.State())
    ensures outcome.Done? ==> CompletedRight(outcome, tunables, estimate, balance, invoice, paid, looks)
    ensures outcome.Done? && invoice(outcome.amount).Some? &&
            KindsFollow(UsesJitChannel(estimate, outcome.amount), looks, invoice(outcome.amount).value) ==>
            !(MustMoveAll(tunables, estimate, balance) && balance.msats > estimate.msats)
  {
    var transfer := TransferAmount(tunables, estimate, balance);
    ghost var _ := SomeMove(tunables, estimate, balance);
    if transfer.None? {
      return NotNeeded;
    }
    var hash := invoice(transfer.value);
    if hash.None? {
      return NoInvoice;
    }
    var rebalanceId := paid(transfer.value);
    if rebalanceId.None? {
      return NotPaid;
    }
    var receipt := AwaitReceipt(looks, hash.value);
    if KindsFollow(UsesJitChannel(estimate, transfer.value), looks, hash.value) {
      ArrivalNoticedExactly(UsesJitChannel(estimate, transfer.value), looks, hash.value);
      JitOnlyWhenForced(tunables, estimate, balance);
    }
    if receipt.Lost? {
      return ReceiptLost;
    }
    if receipt.StillWaiting? {
      return Waiting;
    }
    var marked := store.SetTxCausedRebalance(trigger);
    if !marked {
      return TriggerNotPlain;
    }
    var leg := TxMetadata(now, TransferToNonCustodial(rebalanceId.value, receipt.id, trigger));
    store.Insert(Custodial(rebalanceId.value), leg);
    store.Insert(Lightning(receipt.id), leg);
    return Done(transfer.value, rebalanceId.value, receipt.id);
  }
}
