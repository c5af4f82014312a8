/** The debug assertions of `list_transactions`: which always hold, and when exactly the others do. */
module HistoryAsserts {
  import opened Wrappers
  import opened Amounts
  import opened Metadata
  import opened Store
  import opened Protocol
  import opened ProtocolRuns
  import opened ProtocolSafety
  import opened History

  // ----- When the lists have something to say about a trigger

  lemma {:induction false} SendFeeFound(custodial: seq<CustodialPayment>, mem: MetadataMap, trigger: PaymentId)
    ensures SendFee(custodial, mem, trigger).Some? <==> exists p :: p in custodial && IsCustodialLeg(mem, p, trigger)
  {
    if custodial == [] {
    } else {
      var before, last := custodial[..|custodial| - 1], custodial[|custodial| - 1];
      SendFeeFound(before, mem, trigger);
      assert custodial == before + [last];
      assert last in custodial;
    }
  }

  lemma {:induction false} ReceiveFeeFound(lightning: seq<LightningPayment>, mem: MetadataMap, trigger: PaymentId)
    ensures ReceiveFee(lightning, mem, trigger).Some? <==> exists p :: p in lightning && IsLightningLeg(mem, p, trigger)
  {
    if lightning == [] {
    } else {
      var before, last := lightning[..|lightning| - 1], lightning[|lightning| - 1];
      ReceiveFeeFound(before, mem, trigger);
      assert lightning == before + [last];
      assert last in lightning;
    }
  }

  lemma {:induction false} CustodialTriggerFound(custodial: seq<CustodialPayment>, mem: MetadataMap, trigger: PaymentId)
    ensures CustodialTrigger(custodial, mem, trigger).Some? <==>
            IsTrigger(mem, trigger) && exists p :: p in custodial && Custodial(p.id) == trigger
  {
    if custodial == [] {
    } else {
      var before, last := custodial[..|custodial| - 1], custodial[|custodial| - 1];
      CustodialTriggerFound(before, mem, trigger);
      assert custodial == before + [last];
      assert last in custodial;
    }
  }

  lemma {:induction false} LightningTriggerFound(lightning: seq<LightningPayment>, mem: MetadataMap, trigger: PaymentId)
    ensures LightningTrigger(lightning, mem, trigger).Some? <==>
            IsTrigger(mem, trigger) && exists p :: p in lightning && Lightning(p.id) == trigger
  {
    if lightning == [] {
    } else {
      var before, last := lightning[..|lightning| - 1], lightning[|lightning| - 1];
      LightningTriggerFound(before, mem, trigger);
      assert lightning == before + [last];
      assert last in lightning;
    }
  }

  // ----- The assertions inside the two loops

  /** What the first loop asserts about its `k`-th payment: its record is in place, the entry it fills still empty. */
  ghost predicate CustodialAsserts(s: Snapshot, k: nat)
    requires k < |s.custodial|
  {
    var id, before := Custodial(s.custodial[k].id), s.custodial[..k];
    && (IsTransfer(s.mem, id) ==>
          s.mem[id].ty.custodialPayment == s.custodial[k].id && SendFee(before, s.mem, s.mem[id].ty.trigger).None?)
    && (IsTrigger(s.mem, id) ==> CustodialTrigger(before, s.mem, id).None?)
  }

  ghost predicate LightningAsserts(s: Snapshot, k: nat)
    requires k < |s.lightning|
  {
    var id, before := Lightning(s.lightning[k].id), s.lightning[..k];
    && (IsTransfer(s.mem, id) ==>
          s.mem[id].ty.lightningPayment == s.lightning[k].id && ReceiveFee(before, s.mem, s.mem[id].ty.trigger).None?)
    && (IsTrigger(s.mem, id) ==> LightningTrigger(before, s.mem, id).None?)
  }

  /** They hold whenever neither list repeats an id, also in the middle of a rebalance or after a restart. */
  lemma LoopAssertsHold(c: Codec, r: Run, i: nat, s: Snapshot)
    requires IsRun(c, r) && Careful(r) && i < |r.states|
    requires s.mem == r.states[i].store.mem && s.UniqueIds()
    ensures forall k: nat :: k < |s.custodial| ==> CustodialAsserts(s, k)
    ensures forall k: nat :: k < |s.lightning| ==> LightningAsserts(s, k)
  {
    forall k: nat | k < |s.custodial|
      ensures CustodialAsserts(s, k)
    {
      CustodialAssertsHold(c, r, i, s, k);
    }
    forall k: nat | k < |s.lightning|
      ensures LightningAsserts(s, k)
    {
      LightningAssertsHold(c, r, i, s, k);
    }
  }

  lemma CustodialAssertsHold(c: Codec, r: Run, i: nat, s: Snapshot, k: nat)
    requires IsRun(c, r) && Careful(r) && i < |r.states|
    requires s.mem == r.states[i].store.mem && s.UniqueIds() && k < |s.custodial|
    ensures CustodialAsserts(s, k)
  {
    var id, before := Custodial(s.custodial[k].id), s.custodial[..k];
    if IsTransfer(s.mem, id) {
      TransfersHaveMarkedTriggers(c, r, i, id);
      SendFeeFound(before, s.mem, s.mem[id].ty.trigger);
      forall p | p in before && IsCustodialLeg(s.mem, p, s.mem[id].ty.trigger)
        ensures p.id == s.custodial[k].id
      {
        OneLegOfEachKind(c, r, i, Custodial(p.id), id);
      }
    }
    CustodialTriggerFound(before, s.mem, id);
  }

  lemma LightningAssertsHold(c: Codec, r: Run, i: nat, s: Snapshot, k: nat)
    requires IsRun(c, r) && Careful(r) && i < |r.states|
    requires s.mem == r.states[i].store.mem && s.UniqueIds() && k < |s.lightning|
    ensures LightningAsserts(s, k)
  {
    var id, before := Lightning(s.lightning[k].id), s.lightning[..k];
    if IsTransfer(s.mem, id) {
      TransfersHaveMarkedTriggers(c, r, i, id);
      ReceiveFeeFound(before, s.mem, s.mem[id].ty.trigger);
      forall p | p in before && IsLightningLeg(s.mem, p, s.mem[id].ty.trigger)
        ensures p.id == s.lightning[k].id
      {
        OneLegOfEachKind(c, r, i, Lightning(p.id), id);
      }
    }
    LightningTriggerFound(before, s.mem, id);
  }

  // ----- The assertion that custodial payments are not on-chain

  predicate OffChain(ty: PaymentType) {
    !ty.OutgoingOnChain? && !ty.IncomingOnChain?
  }

  /** What the first loop asserts about the type of a recorded custodial payment. */
  ghost predicate CustodyOffChain(mem: MetadataMap) {
    forall id: CustodialPaymentId ::
      (IsPlain(mem, Custodial(id)) || IsTrigger(mem, Custodial(id))) ==> OffChain(mem[Custodial(id)].ty.ty)
  }

  /** No payment made from custody is recorded as on-chain. */
  ghost predicate RecordsOffChain(e: Event) {
    e.CustodialRecorded? ==> e.ty != OutgoingOnChain && e.ty != IncomingOnChain
  }

  lemma StepOffChain(c: Codec, s: State, e: Event)
    requires BaseInv(c, s) && Enabled(s, e) && CustodyOffChain(s.store.mem)
    ensures CustodyOffChain(Step(c, s, e).store.mem) <==> RecordsOffChain(e)
  {
    if e.Restart? {
      RestartBase(c, s, e);
    } else if IsRecording(e) {
      RecordedOffChain(c, s, e);
    } else if IsLegStep(e) {
      assert FlightFresh(s, s.rebalances[e.task]);
    } else if MarkSucceeds(s, e) {
      MarkedOffChain(c, s, e);
    } else {
      QuietStep(c, s, e);
    }
  }

  lemma RecordedOffChain(c: Codec, s: State, e: Event)
    requires Enabled(s, e) && IsRecording(e) && CustodyOffChain(s.store.mem)
    ensures CustodyOffChain(Step(c, s, e).store.mem) <==> RecordsOffChain(e)
  {
    if e.CustodialRecorded? {
      assert IsPlain(Step(c, s, e).store.mem, Custodial(e.custodialId));
    }
  }

  lemma MarkedOffChain(c: Codec, s: State, e: Event)
    requires Enabled(s, e) && MarkSucceeds(s, e) && CustodyOffChain(s.store.mem)
    ensures CustodyOffChain(Step(c, s, e).store.mem)
  {
    assert Step(c, s, e).store == s.store.Mark(c, s.rebalances[e.task].trigger);
  }

  /** It holds throughout a run exactly when that is so of every payment that the run records from custody. */
  lemma CustodyOffChainExactly(c: Codec, r: Run)
    requires IsRun(c, r)
    ensures (forall i :: 0 <= i < |r.states| ==> CustodyOffChain(r.states[i].store.mem)) <==>
            (forall i :: 0 <= i < |r.events| ==> RecordsOffChain(r.events[i]))
  {
    if forall i :: 0 <= i < |r.states| ==> CustodyOffChain(r.states[i].store.mem) {
      forall i | 0 <= i < |r.events|
        ensures RecordsOffChain(r.events[i])
      {
        assert StepAt(c, r, i) && CustodyOffChain(r.states[i].store.mem) && CustodyOffChain(r.states[i + 1].store.mem);
        RunBase(c, r, i);
        StepOffChain(c, r.states[i], r.events[i]);
      }
    }
    if forall i :: 0 <= i < |r.events| ==> RecordsOffChain(r.events[i]) {
      forall i | 0 <= i < |r.states|
        ensures CustodyOffChain(r.states[i].store.mem)
      {
        RunOffChain(c, r, i);
      }
    }
  }

  lemma {:induction false} RunOffChain(c: Codec, r: Run, i: nat)
    requires IsRun(c, r) && i < |r.states|
    requires forall j :: 0 <= j < |r.events| ==> RecordsOffChain(r.events[j])
    ensures CustodyOffChain(r.states[i].store.mem)
  {
    if i == 0 {
      assert r.states[0] == START;
    } else {
      RunOffChain(c, r, i - 1);
      RunBase(c, r, i - 1);
      assert StepAt(c, r, i - 1) && RecordsOffChain(r.events[i - 1]);
      StepOffChain(c, r.states[i - 1], r.events[i - 1]);
    }
  }

  // ----- The assertions about the whole hash map

  /** Both lists hold every payment that has metadata. */
  ghost predicate AllListed(s: Snapshot) {
    && (forall id: CustodialPaymentId :: Custodial(id) in s.mem ==> exists p :: p in s.custodial && p.id == id)
    && (forall id: Bytes32 :: Lightning(id) in s.mem ==> exists p :: p in s.lightning && p.id == id)
  }

  /** What the third loop asserts about an entry. */
  predicate EntryAsserts(s: Snapshot, id: PaymentId) {
    var e := s.Transfer(id);
    e.lightningReceiveFee.Some? && e.custodialSendFee.Some? && e.transaction.Some?
  }

  /** The keys of the hash map: listed triggers, and the triggers of listed transfers. */
  ghost predicate IsEntry(s: Snapshot, id: PaymentId) {
    || s.Transfer(id).transaction.Some?
    || (exists p :: p in s.custodial && IsTransfer(s.mem, Custodial(p.id)) && s.mem[Custodial(p.id)].ty.trigger == id)
    || (exists p :: p in s.lightning && IsTransfer(s.mem, Lightning(p.id)) && s.mem[Lightning(p.id)].ty.trigger == id)
  }

  /** In any run, with complete lists, an entry passes exactly when its trigger is marked and has both legs. */
  lemma EntryAssertsExactly(c: Codec, r: Run, i: nat, s: Snapshot, id: PaymentId)
    requires IsRun(c, r) && i < |r.states|
    requires s.mem == r.states[i].store.mem && AllListed(s)
    ensures EntryAsserts(s, id) <==> IsTrigger(s.mem, id) && BothLegs(r.states[i].store, id)
  {
    CustodialTriggerFound(s.custodial, s.mem, id);
    LightningTriggerFound(s.lightning, s.mem, id);
    SendFeeFound(s.custodial, s.mem, id);
    ReceiveFeeFound(s.lightning, s.mem, id);
    LegsListed(c, r, i, s, id);
  }

  /** Only careful runs are sure to have no entry whose trigger is not marked. */
  lemma EntryIsTrigger(c: Codec, r: Run, i: nat, s: Snapshot, id: PaymentId)
    requires IsRun(c, r) && Careful(r) && i < |r.states|
    requires s.mem == r.states[i].store.mem && IsEntry(s, id)
    ensures IsTrigger(s.mem, id)
  {
    CustodialTriggerFound(s.custodial, s.mem, id);
    LightningTriggerFound(s.lightning, s.mem, id);
    if p :| p in s.custodial && IsTransfer(s.mem, Custodial(p.id)) && s.mem[Custodial(p.id)].ty.trigger == id {
      TransfersHaveMarkedTriggers(c, r, i, Custodial(p.id));
    }
    if p :| p in s.lightning && IsTransfer(s.mem, Lightning(p.id)) && s.mem[Lightning(p.id)].ty.trigger == id {
      TransfersHaveMarkedTriggers(c, r, i, Lightning(p.id));
    }
  }

  lemma LegsListed(c: Codec, r: Run, i: nat, s: Snapshot, id: PaymentId)
    requires IsRun(c, r) && i < |r.states|
    requires s.mem == r.states[i].store.mem && AllListed(s)
    ensures BothLegs(r.states[i].store, id) <==>
            && (exists p :: p in s.custodial && IsCustodialLeg(s.mem, p, id))
            && (exists p :: p in s.lightning && IsLightningLeg(s.mem, p, id))
  {
    var store := r.states[i].store;
    RunBase(c, r, i);
    if BothLegs(store, id) {
      RecordedLegsListed(store, s, id);
    }
    if p, q :| p in s.custodial && IsCustodialLeg(s.mem, p, id) && q in s.lightning && IsLightningLeg(s.mem, q, id) {
      assert LegAt(store, Custodial(p.id), id) && LegAt(store, Lightning(q.id), id);
    }
  }

  lemma RecordedLegsListed(store: StoreState, s: Snapshot, id: PaymentId)
    requires s.mem == store.mem && AllListed(s) && LegsPlaced(store) && BothLegs(store, id)
    ensures exists p :: p in s.custodial && IsCustodialLeg(s.mem, p, id)
    ensures exists p :: p in s.lightning && IsLightningLeg(s.mem, p, id)
  {
    var custodial, lightning :| LegAt(store, Custodial(custodial), id) && LegAt(store, Lightning(lightning), id);
    assert LegPlaced(store, Custodial(custodial)) && LegPlaced(store, Lightning(lightning));
    var p :| p in s.custodial && p.id == custodial;
    var q :| q in s.lightning && q.id == lightning;
    assert IsCustodialLeg(s.mem, p, id) && IsLightningLeg(s.mem, q, id);
  }

  /** So in a careful run it passes unless its rebalance is still writing the legs or a restart cut that off. */
  lemma EntryAssertsHold(c: Codec, r: Run, i: nat, s: Snapshot, id: PaymentId)
    requires IsRun(c, r) && Careful(r) && i < |r.states|
    requires s.mem == r.states[i].store.mem && AllListed(s) && IsEntry(s, id)
    requires !BeingRecorded(r.states[i], id) && id !in r.states[i].orphans
    ensures EntryAsserts(s, id)
  {
    EntryIsTrigger(c, r, i, s, id);
    MarkedPaymentsComplete(c, r, i, id);
    EntryAssertsExactly(c, r, i, s, id);
  }
}
