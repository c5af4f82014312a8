/**
 * The user's transaction list (`list_transactions`): two payment lists and the metadata, folded through
 * a hash map, against a declarative history.
 */
module History {
  import opened Wrappers
  import opened Amounts
  import opened Metadata
  import opened Store

  datatype Transaction = Transaction(
    status: TxStatus, outbound: bool, amount: Amount, fee: Amount, paymentType: PaymentType, time: nat)

  /** What the hash map collects for one payment that triggered a transfer. */
  datatype InternalTransfer = InternalTransfer(
    lightningReceiveFee: Option<Amount>, custodialSendFee: Option<Amount>, transaction: Option<Transaction>)

  const NO_TRANSFER := InternalTransfer(None, None, None)

  // ----- Single payments

  function CustodialTransaction(p: CustodialPayment, ty: PaymentType, time: nat): Transaction {
    Transaction(p.status, p.outbound, p.amount, p.fee, ty, time)
  }

  /** The payment type of a lightning payment, read off its kind and direction. */
  function LightningType(p: LightningPayment): PaymentType {
    if !p.outbound then (if p.kind.OnChainPayment? then IncomingOnChain else IncomingLightning)
    else
      match p.kind
      case Bolt11(_, preimage) => OutgoingLightningBolt11(preimage)
      case Bolt11Jit(_, preimage) => OutgoingLightningBolt11(preimage)
      case Bolt12Offer(preimage) => OutgoingLightningBolt12(preimage)
      case Bolt12Refund(preimage) => OutgoingLightningBolt12(preimage)
      case Spontaneous(preimage) => OutgoingLightningBolt12(preimage)
      case OnChainPayment => OutgoingOnChain
  }

  function LightningTransaction(p: LightningPayment, time: nat): Transaction {
    Transaction(p.status, p.outbound, Amount(p.amountMsats.GetOr(0)), Amount(0), LightningType(p), time)
  }

  /** The fees of a transfer are charged to the payment that triggered it. */
  function WithFees(t: Transaction, e: InternalTransfer): Transaction {
    var fee := t.fee.SaturatingAdd(e.lightningReceiveFee.GetOr(Amount(0)));
    t.(fee := fee.SaturatingAdd(e.custodialSendFee.GetOr(Amount(0))))
  }

  // ----- What a line shows, field by field

  /** All but the fee. */
  ghost predicate ShowsCustodial(p: CustodialPayment, ty: PaymentType, time: nat, t: Transaction) {
    && t.status == p.status && t.outbound == p.outbound && t.amount == p.amount
    && t.paymentType == ty && t.time == time
  }

  /** The type for each of the six kinds and both directions; a preimage is passed on. */
  ghost predicate TypeFits(p: LightningPayment, ty: PaymentType) {
    && (!p.outbound && p.kind.OnChainPayment? ==> ty == IncomingOnChain)
    && (!p.outbound && !p.kind.OnChainPayment? ==> ty == IncomingLightning)
    && (p.outbound && p.kind.OnChainPayment? ==> ty == OutgoingOnChain)
    && (p.outbound && (p.kind.Bolt11? || p.kind.Bolt11Jit?) ==> ty == OutgoingLightningBolt11(p.kind.preimage))
    && (p.outbound && (p.kind.Bolt12Offer? || p.kind.Bolt12Refund? || p.kind.Spontaneous?) ==>
          ty == OutgoingLightningBolt12(p.kind.preimage))
  }

  /** All but the fee; an amount that the node does not know counts as zero. */
  ghost predicate ShowsLightning(p: LightningPayment, time: nat, t: Transaction) {
    && t.status == p.status && t.outbound == p.outbound && t.time == time && TypeFits(p, t.paymentType)
    && (p.amountMsats.None? ==> t.amount.msats == 0)
    && (p.amountMsats.Some? ==> t.amount.msats == p.amountMsats.value)
  }

  lemma LightningTransactionShows(p: LightningPayment, time: nat)
    ensures ShowsLightning(p, time, LightningTransaction(p, time)) && LightningTransaction(p, time).fee.msats == 0
  {
  }

  // ----- What the lists say about one trigger

  predicate IsCustodialLeg(mem: MetadataMap, p: CustodialPayment, trigger: PaymentId) {
    var id := Custodial(p.id);
    IsTransfer(mem, id) && mem[id].ty.trigger == trigger && mem[id].ty.custodialPayment == p.id
  }

  predicate IsLightningLeg(mem: MetadataMap, p: LightningPayment, trigger: PaymentId) {
    var id := Lightning(p.id);
    IsTransfer(mem, id) && mem[id].ty.trigger == trigger && mem[id].ty.lightningPayment == p.id
  }

  function SendFee(custodial: seq<CustodialPayment>, mem: MetadataMap, trigger: PaymentId): Option<Amount> {
    if custodial == [] then None
    else
      var last := custodial[|custodial| - 1];
      if IsCustodialLeg(mem, last, trigger) then Some(last.fee)
      else SendFee(custodial[..|custodial| - 1], mem, trigger)
  }

  function ReceiveFee(lightning: seq<LightningPayment>, mem: MetadataMap, trigger: PaymentId): Option<Amount> {
    if lightning == [] then None
    else
      var last := lightning[|lightning| - 1];
      if IsLightningLeg(mem, last, trigger) then Some(Amount(0))
      else ReceiveFee(lightning[..|lightning| - 1], mem, trigger)
  }

  /** `p` was paid to move money out of custody, on behalf of `trigger`, and is recorded as such under its own id. */
  ghost predicate PaidTransfer(mem: MetadataMap, p: CustodialPayment, trigger: PaymentId) {
    var id := Custodial(p.id);
    id in mem && exists received: Bytes32 :: mem[id].ty == TransferToNonCustodial(p.id, received, trigger)
  }

  ghost predicate ReceivedTransfer(mem: MetadataMap, p: LightningPayment, trigger: PaymentId) {
    var id := Lightning(p.id);
    id in mem && exists paid: CustodialPaymentId :: mem[id].ty == TransferToNonCustodial(paid, p.id, trigger)
  }

  /** The last payment in the list that was such a transfer. */
  ghost predicate LastTransfer(custodial: seq<CustodialPayment>, mem: MetadataMap, trigger: PaymentId, k: nat) {
    && k < |custodial| && PaidTransfer(mem, custodial[k], trigger)
    && (forall i :: k < i < |custodial| ==> !PaidTransfer(mem, custodial[i], trigger))
  }

  ghost predicate NoTransferPaid(custodial: seq<CustodialPayment>, mem: MetadataMap, trigger: PaymentId) {
    forall i :: 0 <= i < |custodial| ==> !PaidTransfer(mem, custodial[i], trigger)
  }

  lemma {:induction false} NoSendFee(custodial: seq<CustodialPayment>, mem: MetadataMap, trigger: PaymentId)
    ensures SendFee(custodial, mem, trigger).None? <==> NoTransferPaid(custodial, mem, trigger)
  {
    if custodial == [] {
    } else {
      var n := |custodial| - 1;
      NoSendFee(custodial[..n], mem, trigger);
    }
  }

  /** The fee on record for sending a transfer is that of the last payment which was one. */
  lemma {:induction false} SendFeeExactly(custodial: seq<CustodialPayment>, mem: MetadataMap, trigger: PaymentId,
                                          k: nat)
    requires LastTransfer(custodial, mem, trigger, k)
    ensures SendFee(custodial, mem, trigger) == Some(custodial[k].fee)
  {
    var n := |custodial| - 1;
    if k < n {
      SendFeeExactly(custodial[..n], mem, trigger, k);
    }
  }

  /** The node charges nothing for receiving, as far as the list says. */
  lemma {:induction false} ReceiveFeeExactly(lightning: seq<LightningPayment>, mem: MetadataMap, trigger: PaymentId)
    ensures var fee := ReceiveFee(lightning, mem, trigger);
      && (fee.None? <==> forall i :: 0 <= i < |lightning| ==> !ReceivedTransfer(mem, lightning[i], trigger))
      && (fee.Some? ==> fee.value.msats == 0)
  {
    if lightning == [] {
    } else {
      var n := |lightning| - 1;
      ReceiveFeeExactly(lightning[..n], mem, trigger);
    }
  }

  function CustodialTrigger(custodial: seq<CustodialPayment>, mem: MetadataMap, trigger: PaymentId): Option<Transaction>
  {
    if custodial == [] then None
    else
      var last := custodial[|custodial| - 1];
      if Custodial(last.id) == trigger && IsTrigger(mem, trigger) then
        Some(CustodialTransaction(last, mem[trigger].ty.ty, mem[trigger].time))
      else CustodialTrigger(custodial[..|custodial| - 1], mem, trigger)
  }

  function LightningTrigger(lightning: seq<LightningPayment>, mem: MetadataMap, trigger: PaymentId): Option<Transaction>
  {
    if lightning == [] then None
    else
      var last := lightning[|lightning| - 1];
      if Lightning(last.id) == trigger && IsTrigger(mem, trigger) then
        Some(LightningTransaction(last, mem[trigger].time))
      else LightningTrigger(lightning[..|lightning| - 1], mem, trigger)
  }

  /** The entry that the hash map should hold for `trigger`. */
  function TransferOf(custodial: seq<CustodialPayment>, lightning: seq<LightningPayment>, mem: MetadataMap,
                      trigger: PaymentId)
    : InternalTransfer
  {
    InternalTransfer(ReceiveFee(lightning, mem, trigger), SendFee(custodial, mem, trigger),
                     if trigger.Custodial? then CustodialTrigger(custodial, mem, trigger)
                     else LightningTrigger(lightning, mem, trigger))
  }

  // ----- The two loops over the lists

  /** The transactions that the first loop pushes directly. */
  function PlainCustodial(custodial: seq<CustodialPayment>, mem: MetadataMap): seq<Transaction> {
    if custodial == [] then []
    else
      var last := custodial[|custodial| - 1];
      var id := Custodial(last.id);
      PlainCustodial(custodial[..|custodial| - 1], mem) +
      (if IsPlain(mem, id) then [CustodialTransaction(last, mem[id].ty.ty, mem[id].time)] else [])
  }

  /** The second loop also lists completed payments that it knows nothing about. */
  function PlainLightning(lightning: seq<LightningPayment>, mem: MetadataMap): seq<Transaction> {
    if lightning == [] then []
    else
      var last := lightning[|lightning| - 1];
      var id := Lightning(last.id);
      PlainLightning(lightning[..|lightning| - 1], mem) +
      (if IsPlain(mem, id) then [LightningTransaction(last, mem[id].time)]
       else if id !in mem && last.status == Completed then [LightningTransaction(last, last.updated)]
       else [])
  }

  ghost predicate PlainCustodialShown(mem: MetadataMap, p: CustodialPayment, t: Transaction) {
    var id := Custodial(p.id);
    IsPlain(mem, id) && t.fee == p.fee && ShowsCustodial(p, mem[id].ty.ty, mem[id].time, t)
  }

  ghost predicate PlainLightningShown(mem: MetadataMap, p: LightningPayment, t: Transaction) {
    var id := Lightning(p.id);
    && t.fee.msats == 0
    && (id in mem ==> IsPlain(mem, id) && ShowsLightning(p, mem[id].time, t))
    && (id !in mem ==> p.status == Completed && ShowsLightning(p, p.updated, t))
  }

  /** What the first loop pushes shows just the plain custodial payments. */
  lemma {:induction false} PlainCustodialShows(custodial: seq<CustodialPayment>, mem: MetadataMap)
    ensures forall p :: p in custodial && IsPlain(mem, Custodial(p.id)) ==>
              exists t :: t in PlainCustodial(custodial, mem) && PlainCustodialShown(mem, p, t)
    ensures forall t :: t in PlainCustodial(custodial, mem) ==>
              exists p :: p in custodial && PlainCustodialShown(mem, p, t)
  {
    if custodial == [] {
    } else {
      var before, last := custodial[..|custodial| - 1], custodial[|custodial| - 1];
      PlainCustodialShows(before, mem);
      assert custodial == before + [last];
      if IsPlain(mem, Custodial(last.id)) {
        var t := CustodialTransaction(last, mem[Custodial(last.id)].ty.ty, mem[Custodial(last.id)].time);
        assert PlainCustodial(custodial, mem) == PlainCustodial(before, mem) + [t];
        assert t in PlainCustodial(custodial, mem) && PlainCustodialShown(mem, last, t);
      }
    }
  }

  /** The second loop pushes just the plain lightning payments and the completed ones without a record. */
  lemma {:induction false} PlainLightningShows(lightning: seq<LightningPayment>, mem: MetadataMap)
    ensures forall p :: p in lightning &&
                        (IsPlain(mem, Lightning(p.id)) || (Lightning(p.id) !in mem && p.status == Completed)) ==>
              exists t :: t in PlainLightning(lightning, mem) && PlainLightningShown(mem, p, t)
    ensures forall t :: t in PlainLightning(lightning, mem) ==>
              exists p :: p in lightning && PlainLightningShown(mem, p, t)
  {
    if lightning == [] {
    } else {
      var before, last := lightning[..|lightning| - 1], lightning[|lightning| - 1];
      var id := Lightning(last.id);
      PlainLightningShows(before, mem);
      assert lightning == before + [last];
      if IsPlain(mem, id) || (id !in mem && last.status == Completed) {
        var t := LightningTransaction(last, if id in mem then mem[id].time else last.updated);
        LightningTransactionShows(last, t.time);
        assert PlainLightning(lightning, mem) == PlainLightning(before, mem) + [t];
        assert t in PlainLightning(lightning, mem) && PlainLightningShown(mem, last, t);
      }
    }
  }

  type TransferMap = map<PaymentId, InternalTransfer>

  function Entry(transfers: TransferMap, id: PaymentId): InternalTransfer {
    if id in transfers then transfers[id] else NO_TRANSFER
  }

  /** The hash map agrees with the lists, for every trigger. */
  ghost predicate Collected(transfers: TransferMap, custodial: seq<CustodialPayment>, lightning: seq<LightningPayment>,
                            mem: MetadataMap)
  {
    forall id :: Entry(transfers, id) == TransferOf(custodial, lightning, mem, id)
  }

  /** How one entry of the custodial list changes the hash map. */
  function AddCustodial(transfers: TransferMap, mem: MetadataMap, p: CustodialPayment): TransferMap {
    var id := Custodial(p.id);
    if id !in mem then transfers
    else
      match mem[id].ty
      case TransferToNonCustodial(custodialPayment, _, trigger) =>
        var entry := Entry(transfers, trigger);
        transfers[trigger := if p.id == custodialPayment then entry.(custodialSendFee := Some(p.fee)) else entry]
      case PaymentTriggeringTransferToNonCustodial(ty) =>
        transfers[id := Entry(transfers, id).(transaction := Some(CustodialTransaction(p, ty, mem[id].time)))]
      case Payment(_) => transfers
  }

  function AddLightning(transfers: TransferMap, mem: MetadataMap, p: LightningPayment): TransferMap {
    var id := Lightning(p.id);
    if id !in mem then transfers
    else
      match mem[id].ty
      case TransferToNonCustodial(_, lightningPayment, trigger) =>
        var entry := Entry(transfers, trigger);
        transfers[trigger := if p.id == lightningPayment then entry.(lightningReceiveFee := Some(Amount(0))) else entry]
      case PaymentTriggeringTransferToNonCustodial(_) =>
        transfers[id := Entry(transfers, id).(transaction := Some(LightningTransaction(p, mem[id].time)))]
      case Payment(_) => transfers
  }

  lemma AddCustodialCollects(transfers: TransferMap, before: seq<CustodialPayment>, p: CustodialPayment,
                             mem: MetadataMap)
    requires Collected(transfers, before, [], mem)
    ensures Collected(AddCustodial(transfers, mem, p), before + [p], [], mem)
  {
    var all := before + [p];
    assert all[..|all| - 1] == before;
    forall id
      ensures Entry(AddCustodial(transfers, mem, p), id) == TransferOf(all, [], mem, id)
    {
      assert Entry(transfers, id) == TransferOf(before, [], mem, id);
    }
  }

  lemma AddLightningCollects(transfers: TransferMap, custodial: seq<CustodialPayment>, before: seq<LightningPayment>,
                             p: LightningPayment, mem: MetadataMap)
    requires Collected(transfers, custodial, before, mem)
    ensures Collected(AddLightning(transfers, mem, p), custodial, before + [p], mem)
  {
    var all := before + [p];
    assert all[..|all| - 1] == before;
    forall id
      ensures Entry(AddLightning(transfers, mem, p), id) == TransferOf(custodial, all, mem, id)
    {
      assert Entry(transfers, id) == TransferOf(custodial, before, mem, id);
    }
  }

  /** The loop over the custodial list. */
  method FoldCustodial(custodial: seq<CustodialPayment>, mem: MetadataMap)
    returns (res: seq<Transaction>, transfers: TransferMap)
    ensures res == PlainCustodial(custodial, mem)
    ensures forall p :: p in custodial && IsPlain(mem, Custodial(p.id)) ==>
              exists t :: t in res && PlainCustodialShown(mem, p, t)
    ensures forall t :: t in res ==> exists p :: p in custodial && PlainCustodialShown(mem, p, t)
    ensures Collected(transfers, custodial, [], mem)
  {
    res, transfers := [], map[];
    for i := 0 to |custodial|
      invariant res == PlainCustodial(custodial[..i], mem)
      invariant Collected(transfers, custodial[..i], [], mem)
    {
      var p := custodial[i];
      assert custodial[..i + 1] == custodial[..i] + [p] && custodial[..i + 1][..i] == custodial[..i];
      AddCustodialCollects(transfers, custodial[..i], p, mem);
      transfers := AddCustodial(transfers, mem, p);
      if IsPlain(mem, Custodial(p.id)) {
        res := res + [CustodialTransaction(p, mem[Custodial(p.id)].ty.ty, mem[Custodial(p.id)].time)];
      }
    }
    assert custodial[..|custodial|] == custodial;
    PlainCustodialShows(custodial, mem);
  }

  /** The loop over the lightning list. */
  method FoldLightning(custodial: seq<CustodialPayment>, lightning: seq<LightningPayment>, mem: MetadataMap,
                       res0: seq<Transaction>, transfers0: TransferMap)
    returns (res: seq<Transaction>, transfers: TransferMap)
    requires Collected(transfers0, custodial, [], mem)
    ensures res == res0 + PlainLightning(lightning, mem)
    ensures Collected(transfers, custodial, lightning, mem)
  {
    res, transfers := res0, transfers0;
    for i := 0 to |lightning|
      invariant res == res0 + PlainLightning(lightning[..i], mem)
      invariant Collected(transfers, custodial, lightning[..i], mem)
    {
      var p := lightning[i];
      var id := Lightning(p.id);
      assert lightning[..i + 1] == lightning[..i] + [p] && lightning[..i + 1][..i] == lightning[..i];
      AddLightningCollects(transfers, custodial, lightning[..i], p, mem);
      transfers := AddLightning(transfers, mem, p);
      if IsPlain(mem, id) {
        res := res + [LightningTransaction(p, mem[id].time)];
      } else if id !in mem && p.status == Completed {
        res := res + [LightningTransaction(p, p.updated)];
      }
    }
    assert lightning[..|lightning|] == lightning;
  }

  // ----- The third loop

  /** The marked payments in the lists, each once. */
  function Triggers(custodial: seq<CustodialPayment>, lightning: seq<LightningPayment>, mem: MetadataMap)
    : seq<PaymentId>
  {
    if lightning != [] then
      var before := Triggers(custodial, lightning[..|lightning| - 1], mem);
      var id := Lightning(lightning[|lightning| - 1].id);
      if IsTrigger(mem, id) && id !in before then before + [id] else before
    else if custodial != [] then
      var before := Triggers(custodial[..|custodial| - 1], [], mem);
      var id := Custodial(custodial[|custodial| - 1].id);
      if IsTrigger(mem, id) && id !in before then before + [id] else before
    else []
  }

  /** Exactly the triggers have a transaction to show. */
  lemma {:induction false} TriggersAre(custodial: seq<CustodialPayment>, lightning: seq<LightningPayment>,
                                       mem: MetadataMap)
    ensures Distinct(Triggers(custodial, lightning, mem))
    ensures forall id :: id in Triggers(custodial, lightning, mem) <==>
              TransferOf(custodial, lightning, mem, id).transaction.Some?
    ensures forall id :: id in Triggers(custodial, lightning, mem) ==> IsTrigger(mem, id)
    decreases |lightning|, |custodial|
  {
    if lightning != [] {
      TriggersAre(custodial, lightning[..|lightning| - 1], mem);
    } else if custodial != [] {
      TriggersAre(custodial[..|custodial| - 1], [], mem);
    }
  }

  /** What `list_transactions` reads before it starts: both lists and the metadata. */
  datatype Snapshot = Snapshot(custodial: seq<CustodialPayment>, lightning: seq<LightningPayment>, mem: MetadataMap) {

    function Transfer(id: PaymentId): InternalTransfer {
      TransferOf(custodial, lightning, mem, id)
    }

    function AllTriggers(): seq<PaymentId> {
      Triggers(custodial, lightning, mem)
    }

    /** No service lists a payment twice. */
    ghost predicate UniqueIds() {
      && (forall i, j :: 0 <= i < j < |custodial| ==> custodial[i].id != custodial[j].id)
      && (forall i, j :: 0 <= i < j < |lightning| ==> lightning[i].id != lightning[j].id)
    }
  }

  /** What the third loop pushes for one entry. */
  function Shown(s: Snapshot, id: PaymentId): seq<Transaction> {
    var e := s.Transfer(id);
    if e.transaction.Some? then [WithFees(e.transaction.value, e)] else []
  }

  /** The transactions of those `ids` that are among `keys`. */
  function ShownAmong(s: Snapshot, ids: seq<PaymentId>, keys: set<PaymentId>): seq<Transaction> {
    if ids == [] then []
    else (if ids[0] in keys then Shown(s, ids[0]) else []) + ShownAmong(s, ids[1..], keys)
  }

  function Charged(s: Snapshot, ids: seq<PaymentId>): seq<Transaction> {
    if ids == [] then [] else Charged(s, ids[..|ids| - 1]) + Shown(s, ids[|ids| - 1])
  }

  lemma {:induction false} ChargedCons(s: Snapshot, ids: seq<PaymentId>)
    requires ids != []
    ensures Charged(s, ids) == Shown(s, ids[0]) + Charged(s, ids[1..])
  {
    var n := |ids| - 1;
    if n == 0 {
      assert ids[..0] == [] && ids[1..] == [];
    } else {
      ChargedCons(s, ids[..n]);
      var front, middle, back := Shown(s, ids[0]), Charged(s, ids[..n][1..]), Shown(s, ids[n]);
      assert Charged(s, ids[1..]) == middle + back by {
        assert ids[1..][..n - 1] == ids[..n][1..];
      }
      assert (front + middle) + back == front + (middle + back);
    }
  }

  lemma {:induction false} ShownAmongAll(s: Snapshot, ids: seq<PaymentId>, keys: set<PaymentId>)
    requires forall id :: id in ids ==> id in keys
    ensures ShownAmong(s, ids, keys) == Charged(s, ids)
  {
    if ids == [] {
    } else {
      ShownAmongAll(s, ids[1..], keys);
      ChargedCons(s, ids);
    }
  }

  lemma {:induction false} ShownAmongNone(s: Snapshot, ids: seq<PaymentId>)
    ensures ShownAmong(s, ids, {}) == []
  {
    if ids == [] {
    } else {
      ShownAmongNone(s, ids[1..]);
    }
  }

  lemma {:induction false} ShownAmongOthers(s: Snapshot, ids: seq<PaymentId>, keys: set<PaymentId>, id: PaymentId)
    requires id !in ids
    ensures ShownAmong(s, ids, keys) == ShownAmong(s, ids, keys - {id})
  {
    if ids == [] {
    } else {
      ShownAmongOthers(s, ids[1..], keys, id);
    }
  }

  /** Taking one key out of the hash map takes out just its transaction, wherever the key comes in the order. */
  lemma {:induction false} ShownAmongWithout(s: Snapshot, ids: seq<PaymentId>, keys: set<PaymentId>, id: PaymentId)
    requires Distinct(ids) && id in ids && id in keys
    ensures multiset(ShownAmong(s, ids, keys)) == multiset(ShownAmong(s, ids, keys - {id})) + multiset(Shown(s, id))
  {
    if ids[0] == id {
      assert id !in ids[1..];
      ShownAmongOthers(s, ids[1..], keys, id);
    } else {
      ShownAmongWithout(s, ids[1..], keys, id);
    }
  }

  /** The loop over the hash map, whose order is arbitrary. */
  method AddCharged(s: Snapshot, transfers: TransferMap, res0: seq<Transaction>) returns (res: seq<Transaction>)
    requires Collected(transfers, s.custodial, s.lightning, s.mem)
    ensures multiset(res) == multiset(res0) + multiset(Charged(s, s.AllTriggers()))
  {
    res := res0;
    ghost var ids := s.AllTriggers();
    TriggersAre(s.custodial, s.lightning, s.mem);
    var left := transfers.Keys;
    forall id | id in ids
      ensures id in left
    {
      assert Entry(transfers, id) == s.Transfer(id);
    }
    ShownAmongAll(s, ids, left);
    while left != {}
      invariant left <= transfers.Keys
      invariant multiset(res) + multiset(ShownAmong(s, ids, left)) == multiset(res0) + multiset(Charged(s, ids))
      decreases |left|
    {
      var id :| id in left;
      var e := transfers[id];
      assert e == Entry(transfers, id) == s.Transfer(id);
      if e.transaction.Some? {
        ShownAmongWithout(s, ids, left, id);
        res := res + [WithFees(e.transaction.value, e)];
      } else {
        ShownAmongOthers(s, ids, left, id);
      }
      left := left - {id};
    }
    ShownAmongNone(s, ids);
  }

  // ----- Sorting

  predicate SortedByTime(ts: seq<Transaction>) {
    forall i, j :: 0 <= i < j < |ts| ==> ts[i].time <= ts[j].time
  }

  /** Puts `t` behind everything that is not later. */
  function InsertByTime(ts: seq<Transaction>, t: Transaction): seq<Transaction> {
    if ts == [] || ts[|ts| - 1].time <= t.time then ts + [t]
    else InsertByTime(ts[..|ts| - 1], t) + [ts[|ts| - 1]]
  }

  /** The standard library's stable sort, by time. */
  function SortByTime(ts: seq<Transaction>): seq<Transaction> {
    if ts == [] then [] else InsertByTime(SortByTime(ts[..|ts| - 1]), ts[|ts| - 1])
  }

  lemma {:induction false} InsertByTimeKeeps(ts: seq<Transaction>, t: Transaction)
    ensures multiset(InsertByTime(ts, t)) == multiset(ts) + multiset{t}
  {
    if ts == [] || ts[|ts| - 1].time <= t.time {
    } else {
      InsertByTimeKeeps(ts[..|ts| - 1], t);
      assert ts == ts[..|ts| - 1] + [ts[|ts| - 1]];
    }
  }

  lemma {:induction false} InsertByTimeSorts(ts: seq<Transaction>, t: Transaction)
    requires SortedByTime(ts)
    ensures SortedByTime(InsertByTime(ts, t)) && |InsertByTime(ts, t)| == |ts| + 1
    ensures var last := InsertByTime(ts, t)[|ts|]; last == t || (ts != [] && last == ts[|ts| - 1])
  {
    if ts == [] || ts[|ts| - 1].time <= t.time {
    } else {
      InsertByTimeSorts(ts[..|ts| - 1], t);
    }
  }

  lemma {:induction false} SortByTimeKeeps(ts: seq<Transaction>)
    ensures multiset(SortByTime(ts)) == multiset(ts)
  {
    if ts == [] {
    } else {
      var before, last := ts[..|ts| - 1], ts[|ts| - 1];
      SortByTimeKeeps(before);
      InsertByTimeKeeps(SortByTime(before), last);
      assert multiset(ts) == multiset(before) + multiset{last} by {
        assert ts == before + [last];
      }
    }
  }

  lemma {:induction false} SortByTimeSorts(ts: seq<Transaction>)
    ensures SortedByTime(SortByTime(ts))
  {
    if ts == [] {
    } else {
      SortByTimeSorts(ts[..|ts| - 1]);
      InsertByTimeSorts(SortByTime(ts[..|ts| - 1]), ts[|ts| - 1]);
    }
  }

  // ----- The history, declaratively

  /** A payment that triggered a transfer bears the fee of sending that transfer. */
  function Bearing(s: Snapshot, t: Transaction, id: PaymentId): Transaction {
    t.(fee := t.fee.SaturatingAdd(SendFee(s.custodial, s.mem, id).GetOr(Amount(0))))
  }

  /** The line that one custodial payment gets; transfers and payments without metadata get none. */
  function CustodialLine(s: Snapshot, p: CustodialPayment): seq<Transaction> {
    var id := Custodial(p.id);
    if id !in s.mem then []
    else
      match s.mem[id].ty
      case Payment(ty) => [CustodialTransaction(p, ty, s.mem[id].time)]
      case PaymentTriggeringTransferToNonCustodial(ty) => [Bearing(s, CustodialTransaction(p, ty, s.mem[id].time), id)]
      case TransferToNonCustodial(_, _, _) => []
  }

  /** The line that one lightning payment gets; without metadata, only once it has completed. */
  function LightningLine(s: Snapshot, p: LightningPayment): seq<Transaction> {
    var id := Lightning(p.id);
    if id !in s.mem then (if p.status == Completed then [LightningTransaction(p, p.updated)] else [])
    else
      match s.mem[id].ty
      case Payment(_) => [LightningTransaction(p, s.mem[id].time)]
      case PaymentTriggeringTransferToNonCustodial(_) => [Bearing(s, LightningTransaction(p, s.mem[id].time), id)]
      case TransferToNonCustodial(_, _, _) => []
  }

  function CustodialLines(s: Snapshot, entries: seq<CustodialPayment>): seq<Transaction> {
    if entries == [] then [] else CustodialLines(s, entries[..|entries| - 1]) + CustodialLine(s, entries[|entries| - 1])
  }

  function LightningLines(s: Snapshot, entries: seq<LightningPayment>): seq<Transaction> {
    if entries == [] then [] else LightningLines(s, entries[..|entries| - 1]) + LightningLine(s, entries[|entries| - 1])
  }

  /** What the user should see: a line for every payment of theirs, in the order of the two lists. */
  function UserHistory(s: Snapshot): seq<Transaction> {
    CustodialLines(s, s.custodial) + LightningLines(s, s.lightning)
  }

  // ----- What the history shows, field by field

  /** A sum of fees, up to 21 million bitcoin. */
  ghost predicate FeeSum(fee: Amount, own: Amount, send: int) {
    fee.msats == if own.msats + send <= MAX_MSATS then own.msats + send else MAX_MSATS
  }

  /** The payment's own fee, with that of the transfer paid on its behalf on top. */
  ghost predicate FeeWith(s: Snapshot, fee: Amount, own: Amount, id: PaymentId) {
    && (NoTransferPaid(s.custodial, s.mem, id) ==> FeeSum(fee, own, 0))
    && (forall k: nat :: LastTransfer(s.custodial, s.mem, id, k) ==> FeeSum(fee, own, s.custodial[k].fee.msats))
  }

  /** Adding what is on record for sending a transfer, with saturation, gives that. */
  lemma FeeCharged(s: Snapshot, id: PaymentId)
    ensures forall own: Amount ::
              FeeWith(s, own.SaturatingAdd(SendFee(s.custodial, s.mem, id).GetOr(Amount(0))), own, id)
  {
    NoSendFee(s.custodial, s.mem, id);
    forall k: nat | LastTransfer(s.custodial, s.mem, id, k)
      ensures SendFee(s.custodial, s.mem, id) == Some(s.custodial[k].fee)
    {
      SendFeeExactly(s.custodial, s.mem, id, k);
    }
  }

  ghost predicate CustodialShown(s: Snapshot, p: CustodialPayment, t: Transaction) {
    var id := Custodial(p.id);
    && (IsPlain(s.mem, id) || IsTrigger(s.mem, id))
    && ShowsCustodial(p, s.mem[id].ty.ty, s.mem[id].time, t)
    && (IsPlain(s.mem, id) ==> t.fee == p.fee)
    && (IsTrigger(s.mem, id) ==> FeeWith(s, t.fee, p.fee, id))
  }

  ghost predicate LightningShown(s: Snapshot, p: LightningPayment, t: Transaction) {
    var id := Lightning(p.id);
    && (id !in s.mem ==> p.status == Completed && ShowsLightning(p, p.updated, t))
    && (id in s.mem ==> (IsPlain(s.mem, id) || IsTrigger(s.mem, id)) && ShowsLightning(p, s.mem[id].time, t))
    && (!IsTrigger(s.mem, id) ==> t.fee.msats == 0)
    && (IsTrigger(s.mem, id) ==> FeeWith(s, t.fee, Amount(0), id))
  }

  /** A payment of one of the two lists, by its position. */
  datatype Listed = FromCustody(i: nat) | FromNode(j: nat)

  /** The user's payments: recorded as payments, marked or not, or completed on the node without a record. */
  ghost predicate IsUsers(s: Snapshot, payment: Listed) {
    match payment
    case FromCustody(i) =>
      i < |s.custodial| && var id := Custodial(s.custodial[i].id); IsPlain(s.mem, id) || IsTrigger(s.mem, id)
    case FromNode(j) =>
      j < |s.lightning| && var id := Lightning(s.lightning[j].id);
      IsPlain(s.mem, id) || IsTrigger(s.mem, id) || (id !in s.mem && s.lightning[j].status == Completed)
  }

  ghost predicate Shows(s: Snapshot, payment: Listed, t: Transaction) {
    match payment
    case FromCustody(i) => i < |s.custodial| && CustodialShown(s, s.custodial[i], t)
    case FromNode(j) => j < |s.lightning| && LightningShown(s, s.lightning[j], t)
  }

  /** `lines` has one line for each of the user's payments, showing just that. */
  ghost predicate ShowsAll(s: Snapshot, payments: seq<Listed>, lines: seq<Transaction>) {
    && Distinct(payments) && (forall payment :: payment in payments <==> IsUsers(s, payment))
    && InStep(s, payments, lines)
  }

  ghost function CustodyPayments(s: Snapshot, n: nat): seq<Listed>
    requires n <= |s.custodial|
  {
    if n == 0 then []
    else CustodyPayments(s, n - 1) + (if IsUsers(s, FromCustody(n - 1)) then [FromCustody(n - 1)] else [])
  }

  ghost function NodePayments(s: Snapshot, n: nat): seq<Listed>
    requires n <= |s.lightning|
  {
    if n == 0 then []
    else NodePayments(s, n - 1) + (if IsUsers(s, FromNode(n - 1)) then [FromNode(n - 1)] else [])
  }

  lemma CustodialLineShows(s: Snapshot, i: nat)
    requires i < |s.custodial|
    ensures var line := CustodialLine(s, s.custodial[i]);
      if IsUsers(s, FromCustody(i)) then |line| == 1 && Shows(s, FromCustody(i), line[0]) else line == []
  {
    FeeCharged(s, Custodial(s.custodial[i].id));
  }

  lemma LightningLineShows(s: Snapshot, j: nat)
    requires j < |s.lightning|
    ensures var line := LightningLine(s, s.lightning[j]);
      if IsUsers(s, FromNode(j)) then |line| == 1 && Shows(s, FromNode(j), line[0]) else line == []
  {
    FeeCharged(s, Lightning(s.lightning[j].id));
  }

  ghost predicate InStep(s: Snapshot, payments: seq<Listed>, lines: seq<Transaction>) {
    |lines| == |payments| && forall k :: 0 <= k < |lines| ==> Shows(s, payments[k], lines[k])
  }

  lemma InStepConcat(s: Snapshot, a: seq<Listed>, x: seq<Transaction>, b: seq<Listed>, y: seq<Transaction>)
    requires InStep(s, a, x) && InStep(s, b, y)
    ensures InStep(s, a + b, x + y)
  {
  }

  lemma {:induction false} CustodyPaymentsAre(s: Snapshot, n: nat)
    requires n <= |s.custodial|
    ensures Distinct(CustodyPayments(s, n))
    ensures forall p :: p in CustodyPayments(s, n) <==> p.FromCustody? && p.i < n && IsUsers(s, p)
  {
    if n == 0 {
    } else {
      CustodyPaymentsAre(s, n - 1);
    }
  }

  lemma {:induction false} NodePaymentsAre(s: Snapshot, n: nat)
    requires n <= |s.lightning|
    ensures Distinct(NodePayments(s, n))
    ensures forall p :: p in NodePayments(s, n) <==> p.FromNode? && p.j < n && IsUsers(s, p)
  {
    if n == 0 {
    } else {
      NodePaymentsAre(s, n - 1);
    }
  }

  lemma {:induction false} CustodyPaymentsShown(s: Snapshot, n: nat)
    requires n <= |s.custodial|
    ensures InStep(s, CustodyPayments(s, n), CustodialLines(s, s.custodial[..n]))
  {
    if n == 0 {
      assert s.custodial[..0] == [];
    } else {
      CustodyPaymentsShown(s, n - 1);
      CustodialLineShows(s, n - 1);
      assert s.custodial[..n][..n - 1] == s.custodial[..n - 1];
      InStepConcat(s, CustodyPayments(s, n - 1), CustodialLines(s, s.custodial[..n - 1]),
                   if IsUsers(s, FromCustody(n - 1)) then [FromCustody(n - 1)] else [],
                   CustodialLine(s, s.custodial[n - 1]));
    }
  }

  lemma {:induction false} NodePaymentsShown(s: Snapshot, n: nat)
    requires n <= |s.lightning|
    ensures InStep(s, NodePayments(s, n), LightningLines(s, s.lightning[..n]))
  {
    if n == 0 {
      assert s.lightning[..0] == [];
    } else {
      NodePaymentsShown(s, n - 1);
      LightningLineShows(s, n - 1);
      assert s.lightning[..n][..n - 1] == s.lightning[..n - 1];
      InStepConcat(s, NodePayments(s, n - 1), LightningLines(s, s.lightning[..n - 1]),
                   if IsUsers(s, FromNode(n - 1)) then [FromNode(n - 1)] else [],
                   LightningLine(s, s.lightning[n - 1]));
    }
  }

  lemma AllPayments(s: Snapshot, a: seq<Listed>, b: seq<Listed>)
    requires Distinct(a) && forall p :: p in a <==> p.FromCustody? && p.i < |s.custodial| && IsUsers(s, p)
    requires Distinct(b) && forall p :: p in b <==> p.FromNode? && p.j < |s.lightning| && IsUsers(s, p)
    ensures Distinct(a + b) && forall p :: p in a + b <==> IsUsers(s, p)
  {
    assert forall i :: 0 <= i < |a| ==> a[i] in a;
    assert forall i :: 0 <= i < |b| ==> b[i] in b;
  }

  /** The history has one line for each of the user's payments, which shows that payment, and no other line. */
  lemma HistoryShowsAll(s: Snapshot)
    ensures ShowsAll(s, CustodyPayments(s, |s.custodial|) + NodePayments(s, |s.lightning|), UserHistory(s))
  {
    CustodyPaymentsAre(s, |s.custodial|);
    NodePaymentsAre(s, |s.lightning|);
    CustodyPaymentsShown(s, |s.custodial|);
    NodePaymentsShown(s, |s.lightning|);
    assert s.custodial[..|s.custodial|] == s.custodial && s.lightning[..|s.lightning|] == s.lightning;
    InStepConcat(s, CustodyPayments(s, |s.custodial|), CustodialLines(s, s.custodial),
                 NodePayments(s, |s.lightning|), LightningLines(s, s.lightning));
    AllPayments(s, CustodyPayments(s, |s.custodial|), NodePayments(s, |s.lightning|));
  }

  /** The same for a list in any order. */
  ghost predicate ListsAll(s: Snapshot, res: seq<Transaction>) {
    exists payments, lines :: ShowsAll(s, payments, lines) && multiset(lines) == multiset(res)
  }

  /** So every payment of the user's has a line that shows it, and every line shows one. */
  lemma ListsAllMeans(s: Snapshot, res: seq<Transaction>)
    requires ListsAll(s, res)
    ensures forall payment :: IsUsers(s, payment) ==> exists t :: t in res && Shows(s, payment, t)
    ensures forall t :: t in res ==> exists payment :: IsUsers(s, payment) && Shows(s, payment, t)
  {
    var payments, lines :| ShowsAll(s, payments, lines) && multiset(lines) == multiset(res);
    forall payment | IsUsers(s, payment)
      ensures exists t :: t in res && Shows(s, payment, t)
    {
      var k :| 0 <= k < |payments| && payments[k] == payment;
      assert lines[k] in multiset(res);
    }
    forall t | t in res
      ensures exists payment :: IsUsers(s, payment) && Shows(s, payment, t)
    {
      assert t in multiset(lines);
      var k :| 0 <= k < |lines| && lines[k] == t;
      assert payments[k] in payments;
    }
  }

  lemma WithFeesBears(s: Snapshot, t: Transaction, id: PaymentId)
    ensures WithFees(t, s.Transfer(id)) == Bearing(s, t, id)
  {
    ReceiveFeeIsZero(s.lightning, s.mem, id);
  }

  lemma {:induction false} ReceiveFeeIsZero(lightning: seq<LightningPayment>, mem: MetadataMap, id: PaymentId)
    ensures ReceiveFee(lightning, mem, id).GetOr(Amount(0)) == Amount(0)
  {
    if lightning == [] {
    } else {
      ReceiveFeeIsZero(lightning[..|lightning| - 1], mem, id);
    }
  }

  lemma {:induction false} CustodialTriggerIs(custodial: seq<CustodialPayment>, mem: MetadataMap, k: nat)
    requires k < |custodial| && IsTrigger(mem, Custodial(custodial[k].id))
    requires forall i, j :: 0 <= i < j < |custodial| ==> custodial[i].id != custodial[j].id
    ensures var id := Custodial(custodial[k].id);
      CustodialTrigger(custodial, mem, id) == Some(CustodialTransaction(custodial[k], mem[id].ty.ty, mem[id].time))
  {
    if k < |custodial| - 1 {
      CustodialTriggerIs(custodial[..|custodial| - 1], mem, k);
    }
  }

  lemma {:induction false} LightningTriggerIs(lightning: seq<LightningPayment>, mem: MetadataMap, k: nat)
    requires k < |lightning| && IsTrigger(mem, Lightning(lightning[k].id))
    requires forall i, j :: 0 <= i < j < |lightning| ==> lightning[i].id != lightning[j].id
    ensures var id := Lightning(lightning[k].id);
      LightningTrigger(lightning, mem, id) == Some(LightningTransaction(lightning[k], mem[id].time))
  {
    if k < |lightning| - 1 {
      LightningTriggerIs(lightning[..|lightning| - 1], mem, k);
    }
  }

  /** Triggers come from the lists. */
  lemma {:induction false} TriggersListed(custodial: seq<CustodialPayment>, lightning: seq<LightningPayment>,
                                          mem: MetadataMap, id: PaymentId)
    requires id in Triggers(custodial, lightning, mem)
    ensures || (exists p :: p in custodial && id == Custodial(p.id))
            || (exists p :: p in lightning && id == Lightning(p.id))
    decreases |lightning|, |custodial|
  {
    if lightning != [] {
      if id == Lightning(lightning[|lightning| - 1].id) {
        assert lightning[|lightning| - 1] in lightning;
      } else {
        TriggersListed(custodial, lightning[..|lightning| - 1], mem, id);
      }
    } else if custodial != [] {
      if id == Custodial(custodial[|custodial| - 1].id) {
        assert custodial[|custodial| - 1] in custodial;
      } else {
        TriggersListed(custodial[..|custodial| - 1], [], mem, id);
      }
    }
  }

  lemma NewCustodialTrigger(s: Snapshot, k: nat)
    requires s.UniqueIds() && k < |s.custodial| && IsTrigger(s.mem, Custodial(s.custodial[k].id))
    ensures var before, id := Triggers(s.custodial[..k], [], s.mem), Custodial(s.custodial[k].id);
      && Triggers(s.custodial[..k + 1], [], s.mem) == before + [id]
      && s.Transfer(id).transaction == Some(CustodialTransaction(s.custodial[k], s.mem[id].ty.ty, s.mem[id].time))
  {
    var before, id := Triggers(s.custodial[..k], [], s.mem), Custodial(s.custodial[k].id);
    if id in before {
      TriggersListed(s.custodial[..k], [], s.mem, id);
    }
    assert s.custodial[..k + 1][..k] == s.custodial[..k];
    CustodialTriggerIs(s.custodial, s.mem, k);
  }

  lemma NewLightningTrigger(s: Snapshot, k: nat)
    requires s.UniqueIds() && k < |s.lightning| && IsTrigger(s.mem, Lightning(s.lightning[k].id))
    ensures var before, id := Triggers(s.custodial, s.lightning[..k], s.mem), Lightning(s.lightning[k].id);
      && Triggers(s.custodial, s.lightning[..k + 1], s.mem) == before + [id]
      && s.Transfer(id).transaction == Some(LightningTransaction(s.lightning[k], s.mem[id].time))
  {
    var before, id := Triggers(s.custodial, s.lightning[..k], s.mem), Lightning(s.lightning[k].id);
    if id in before {
      TriggersListed(s.custodial, s.lightning[..k], s.mem, id);
    }
    assert s.lightning[..k + 1][..k] == s.lightning[..k];
    LightningTriggerIs(s.lightning, s.mem, k);
  }

  /** One more lightning payment adds its line to what is pushed directly or to what the hash map holds. */
  lemma LightningStep(s: Snapshot, k: nat)
    requires s.UniqueIds() && k < |s.lightning|
    ensures var line := LightningLine(s, s.lightning[k]);
      && LightningLines(s, s.lightning[..k + 1]) == LightningLines(s, s.lightning[..k]) + line
      && Joins(line,
               PlainLightning(s.lightning[..k], s.mem), PlainLightning(s.lightning[..k + 1], s.mem),
               Charged(s, Triggers(s.custodial, s.lightning[..k], s.mem)),
               Charged(s, Triggers(s.custodial, s.lightning[..k + 1], s.mem)))
  {
    var p := s.lightning[k];
    assert s.lightning[..k + 1][..k] == s.lightning[..k];
    if IsTrigger(s.mem, Lightning(p.id)) {
      NewLightningTrigger(s, k);
      WithFeesBears(s, LightningTransaction(p, s.mem[Lightning(p.id)].time), Lightning(p.id));
    }
  }

  ghost predicate Joins(line: seq<Transaction>, a0: seq<Transaction>, a1: seq<Transaction>, b0: seq<Transaction>,
                        b1: seq<Transaction>)
  {
    (a1 == a0 + line && b1 == b0) || (a1 == a0 && b1 == b0 + line)
  }

  lemma JoinsOnce(line: seq<Transaction>, a0: seq<Transaction>, a1: seq<Transaction>, b0: seq<Transaction>,
                  b1: seq<Transaction>)
    requires Joins(line, a0, a1, b0, b1)
    ensures multiset(a1) + multiset(b1) == multiset(a0) + multiset(b0) + multiset(line)
  {
  }

  lemma AddToBoth<T>(old0: multiset<T>, old1: multiset<T>, old2: multiset<T>, new0: multiset<T>, new1: multiset<T>,
                     line: multiset<T>)
    requires old0 == old1 + old2 && new0 == old0 + line && new1 == old1 + line
    ensures new0 == new1 + old2
  {
  }

  /** One more custodial payment adds its line to what is pushed directly or to what the hash map holds. */
  lemma CustodialStep(s: Snapshot, k: nat)
    requires s.UniqueIds() && k < |s.custodial|
    ensures var line := CustodialLine(s, s.custodial[k]);
      && CustodialLines(s, s.custodial[..k + 1]) == CustodialLines(s, s.custodial[..k]) + line
      && Joins(line,
               PlainCustodial(s.custodial[..k], s.mem), PlainCustodial(s.custodial[..k + 1], s.mem),
               Charged(s, Triggers(s.custodial[..k], [], s.mem)), Charged(s, Triggers(s.custodial[..k + 1], [], s.mem)))
  {
    var p := s.custodial[k];
    var id := Custodial(p.id);
    assert s.custodial[..k + 1][..k] == s.custodial[..k];
    if IsTrigger(s.mem, id) {
      NewCustodialTrigger(s, k);
      WithFeesBears(s, CustodialTransaction(p, s.mem[id].ty.ty, s.mem[id].time), id);
    }
  }

  lemma {:induction false} CustodialPart(s: Snapshot, n: nat)
    requires s.UniqueIds() && n <= |s.custodial|
    ensures multiset(PlainCustodial(s.custodial[..n], s.mem)) +
            multiset(Charged(s, Triggers(s.custodial[..n], [], s.mem))) ==
            multiset(CustodialLines(s, s.custodial[..n]))
  {
    if n == 0 {
      assert s.custodial[..0] == [];
    } else {
      CustodialPart(s, n - 1);
      CustodialStep(s, n - 1);
      JoinsOnce(CustodialLine(s, s.custodial[n - 1]), PlainCustodial(s.custodial[..n - 1], s.mem),
                PlainCustodial(s.custodial[..n], s.mem),
                Charged(s, Triggers(s.custodial[..n - 1], [], s.mem)),
                Charged(s, Triggers(s.custodial[..n], [], s.mem)));
    }
  }

  lemma {:induction false} LightningPart(s: Snapshot, n: nat)
    requires s.UniqueIds() && n <= |s.lightning|
    ensures multiset(PlainLightning(s.lightning[..n], s.mem)) +
            multiset(Charged(s, Triggers(s.custodial, s.lightning[..n], s.mem))) ==
            multiset(LightningLines(s, s.lightning[..n])) + multiset(Charged(s, Triggers(s.custodial, [], s.mem)))
  {
    if n == 0 {
      assert s.lightning[..0] == [];
    } else {
      var k := n - 1;
      var line := LightningLine(s, s.lightning[k]);
      LightningPart(s, k);
      LightningStep(s, k);
      JoinsOnce(line, PlainLightning(s.lightning[..k], s.mem), PlainLightning(s.lightning[..n], s.mem),
                Charged(s, Triggers(s.custodial, s.lightning[..k], s.mem)),
                Charged(s, Triggers(s.custodial, s.lightning[..n], s.mem)));
      AddToBoth(multiset(PlainLightning(s.lightning[..k], s.mem)) +
                multiset(Charged(s, Triggers(s.custodial, s.lightning[..k], s.mem))),
                multiset(LightningLines(s, s.lightning[..k])), multiset(Charged(s, Triggers(s.custodial, [], s.mem))),
                multiset(PlainLightning(s.lightning[..n], s.mem)) +
                multiset(Charged(s, Triggers(s.custodial, s.lightning[..n], s.mem))),
                multiset(LightningLines(s, s.lightning[..n])), multiset(line));
    }
  }

  lemma Exchange<T>(a: multiset<T>, b: multiset<T>, c: multiset<T>, d: multiset<T>, l: multiset<T>, m: multiset<T>)
    requires a + c == l && b + d == m + c
    ensures a + b + d == l + m
  {
    assert a + b + d == a + (m + c);
    assert a + (m + c) == (a + c) + m;
  }

  /** Folding the lists through the hash map gives the declarative history. */
  lemma ListingIsHistory(s: Snapshot)
    requires s.UniqueIds()
    ensures multiset(PlainCustodial(s.custodial, s.mem)) + multiset(PlainLightning(s.lightning, s.mem)) +
            multiset(Charged(s, s.AllTriggers())) == multiset(UserHistory(s))
  {
    assert s.custodial[..|s.custodial|] == s.custodial && s.lightning[..|s.lightning|] == s.lightning;
    CustodialPart(s, |s.custodial|);
    LightningPart(s, |s.lightning|);
    Exchange(multiset(PlainCustodial(s.custodial, s.mem)), multiset(PlainLightning(s.lightning, s.mem)),
             multiset(Charged(s, Triggers(s.custodial, [], s.mem))), multiset(Charged(s, s.AllTriggers())),
             multiset(CustodialLines(s, s.custodial)), multiset(LightningLines(s, s.lightning)));
  }

  method ListTransactions(custodial: seq<CustodialPayment>, lightning: seq<LightningPayment>, mem: MetadataMap)
    returns (res: seq<Transaction>)
    ensures SortedByTime(res)
    ensures var s := Snapshot(custodial, lightning, mem);
      && multiset(res) == multiset(PlainCustodial(custodial, mem)) + multiset(PlainLightning(lightning, mem)) +
                          multiset(Charged(s, s.AllTriggers()))
      && (s.UniqueIds() ==> multiset(res) == multiset(UserHistory(s)) && ListsAll(s, res))
  {
    var s := Snapshot(custodial, lightning, mem);
    var transfers;
    res, transfers := FoldCustodial(custodial, mem);
    res, transfers := FoldLightning(custodial, lightning, mem, res, transfers);
    res := AddCharged(s, transfers, res);
    SortByTimeSorts(res);
    SortByTimeKeeps(res);
    res := SortByTime(res);
    if s.UniqueIds() {
      ListingIsHistory(s);
      HistoryShowsAll(s);
    }
  }
}
