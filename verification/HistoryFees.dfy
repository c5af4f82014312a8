/** Where the fees go: what the user's list charges in total, against what the custodial service charged. */
module HistoryFees {
  import opened Wrappers
  import opened Amounts
  import opened Metadata
  import opened Store
  import opened Protocol
  import opened ProtocolRuns
  import opened History

  function SumFees(ts: seq<Transaction>): nat {
    if ts == [] then 0 else SumFees(ts[..|ts| - 1]) + ts[|ts| - 1].fee.msats
  }

  /** The fee that a trigger bears for the transfer it caused. */
  function Sends(custodial: seq<CustodialPayment>, mem: MetadataMap, id: PaymentId): nat {
    SendFee(custodial, mem, id).GetOr(Amount(0)).msats
  }

  function SumSends(custodial: seq<CustodialPayment>, mem: MetadataMap, ids: seq<PaymentId>): nat {
    if ids == [] then 0 else SumSends(custodial, mem, ids[..|ids| - 1]) + Sends(custodial, mem, ids[|ids| - 1])
  }

  /** The fees of all custodial payments that have metadata. */
  function RecordedFees(mem: MetadataMap, entries: seq<CustodialPayment>): nat {
    if entries == [] then 0
    else
      var p := entries[|entries| - 1];
      RecordedFees(mem, entries[..|entries| - 1]) + (if Custodial(p.id) in mem then p.fee.msats else 0)
  }

  /** The part of them that is the user's own payments. */
  function OwnFees(mem: MetadataMap, entries: seq<CustodialPayment>): nat {
    if entries == [] then 0
    else
      var p := entries[|entries| - 1];
      OwnFees(mem, entries[..|entries| - 1]) +
      (if Custodial(p.id) in mem && !IsTransfer(mem, Custodial(p.id)) then p.fee.msats else 0)
  }

  /** The part of them that is transfers, whose triggers are (`listed`) or are not among `ids`. */
  function LegFees(mem: MetadataMap, entries: seq<CustodialPayment>, ids: seq<PaymentId>, listed: bool): nat {
    if entries == [] then 0
    else
      var p := entries[|entries| - 1];
      LegFees(mem, entries[..|entries| - 1], ids, listed) +
      (if IsTransfer(mem, Custodial(p.id)) && (mem[Custodial(p.id)].ty.trigger in ids) == listed
       then p.fee.msats else 0)
  }

  /** Every custodial leg lies under its own id, and no two of them have the same trigger. */
  ghost predicate OneLegPerTrigger(custodial: seq<CustodialPayment>, mem: MetadataMap) {
    && (forall p :: p in custodial && IsTransfer(mem, Custodial(p.id)) ==>
          mem[Custodial(p.id)].ty.custodialPayment == p.id)
    && (forall i, j :: 0 <= i < j < |custodial| &&
                       IsTransfer(mem, Custodial(custodial[i].id)) && IsTransfer(mem, Custodial(custodial[j].id)) ==>
          mem[Custodial(custodial[i].id)].ty.trigger != mem[Custodial(custodial[j].id)].ty.trigger)
  }

  /** No fee in the list reaches the cap of 21 million bitcoin. */
  ghost predicate NoFeeSaturates(s: Snapshot) {
    && (forall k :: 0 <= k < |s.custodial| ==> CustodialFits(s, s.custodial[k]))
    && (forall k :: 0 <= k < |s.lightning| ==> LightningFits(s, s.lightning[k]))
  }

  ghost predicate CustodialFits(s: Snapshot, p: CustodialPayment) {
    IsTrigger(s.mem, Custodial(p.id)) ==> p.fee.msats + Sends(s.custodial, s.mem, Custodial(p.id)) <= MAX_MSATS
  }

  ghost predicate LightningFits(s: Snapshot, p: LightningPayment) {
    IsTrigger(s.mem, Lightning(p.id)) ==> Sends(s.custodial, s.mem, Lightning(p.id)) <= MAX_MSATS
  }

  // ----- Sums do not depend on the order

  lemma {:induction false} SumFeesWithout(ts: seq<Transaction>, k: nat)
    requires k < |ts|
    ensures SumFees(ts) == SumFees(ts[..k] + ts[k + 1..]) + ts[k].fee.msats
  {
    var n := |ts| - 1;
    if k == n {
      assert ts[..k] + ts[k + 1..] == ts[..n];
    } else {
      SumFeesWithout(ts[..n], k);
      assert ts[..n][..k] + ts[..n][k + 1..] == (ts[..k] + ts[k + 1..])[..n - 1];
    }
  }

  lemma {:induction false} SumFeesPermuted(a: seq<Transaction>, b: seq<Transaction>)
    requires multiset(a) == multiset(b)
    ensures SumFees(a) == SumFees(b)
  {
    if a == [] {
      assert |b| == |multiset(b)| == 0;
    } else {
      var before, last := a[..|a| - 1], a[|a| - 1];
      assert a == before + [last];
      assert last in multiset(b);
      var k :| 0 <= k < |b| && b[k] == last;
      RemoveOne(before, last, b, k);
      SumFeesWithout(b, k);
      SumFeesPermuted(before, b[..k] + b[k + 1..]);
    }
  }

  lemma RemoveOne<T>(before: seq<T>, last: T, b: seq<T>, k: nat)
    requires k < |b| && b[k] == last && multiset(before + [last]) == multiset(b)
    ensures multiset(before) == multiset(b[..k] + b[k + 1..])
  {
    var rest := b[..k] + b[k + 1..];
    assert multiset(b) == multiset(rest) + multiset{last} by {
      assert b == b[..k] + [b[k]] + b[k + 1..];
    }
    assert multiset(before) == multiset(b) - multiset{last};
  }

  lemma {:induction false} SumFeesConcat(a: seq<Transaction>, b: seq<Transaction>)
    ensures SumFees(a + b) == SumFees(a) + SumFees(b)
  {
    if b == [] {
      assert a + b == a;
    } else {
      assert (a + b)[..|a + b| - 1] == a + b[..|b| - 1];
      SumFeesConcat(a, b[..|b| - 1]);
    }
  }

  // ----- The fees of the transfers are what the triggers bear

  lemma {:induction false} SendsExtended(before: seq<CustodialPayment>, last: CustodialPayment, mem: MetadataMap,
                                         ids: seq<PaymentId>)
    requires Distinct(ids)
    requires IsTransfer(mem, Custodial(last.id)) ==>
               mem[Custodial(last.id)].ty.custodialPayment == last.id &&
               SendFee(before, mem, mem[Custodial(last.id)].ty.trigger).None?
    ensures SumSends(before + [last], mem, ids) ==
            SumSends(before, mem, ids) +
            (if IsTransfer(mem, Custodial(last.id)) && mem[Custodial(last.id)].ty.trigger in ids
             then last.fee.msats else 0)
  {
    if ids == [] {
    } else {
      var id := ids[|ids| - 1];
      SendsExtended(before, last, mem, ids[..|ids| - 1]);
      assert (before + [last])[..|before|] == before;
      assert ids == ids[..|ids| - 1] + [id];
    }
  }

  lemma {:induction false} NoSend(entries: seq<CustodialPayment>, mem: MetadataMap, trigger: PaymentId)
    requires forall p :: p in entries && IsTransfer(mem, Custodial(p.id)) ==> mem[Custodial(p.id)].ty.trigger != trigger
    ensures SendFee(entries, mem, trigger).None?
  {
    if entries == [] {
    } else {
      assert entries[|entries| - 1] in entries;
      NoSend(entries[..|entries| - 1], mem, trigger);
    }
  }

  lemma {:induction false} SendsAreLegFees(entries: seq<CustodialPayment>, mem: MetadataMap, ids: seq<PaymentId>)
    requires Distinct(ids) && OneLegPerTrigger(entries, mem)
    ensures SumSends(entries, mem, ids) == LegFees(mem, entries, ids, true)
  {
    if entries == [] {
      NothingSent(mem, ids);
    } else {
      var before, last := entries[..|entries| - 1], entries[|entries| - 1];
      assert entries == before + [last];
      assert last in entries;
      SendsAreLegFees(before, mem, ids);
      if IsTransfer(mem, Custodial(last.id)) {
        NoSend(before, mem, mem[Custodial(last.id)].ty.trigger);
      }
      SendsExtended(before, last, mem, ids);
    }
  }

  lemma {:induction false} NothingSent(mem: MetadataMap, ids: seq<PaymentId>)
    ensures SumSends([], mem, ids) == 0
  {
    if ids == [] {
    } else {
      NothingSent(mem, ids[..|ids| - 1]);
    }
  }

  lemma {:induction false} RecordedFeesSplit(mem: MetadataMap, entries: seq<CustodialPayment>, ids: seq<PaymentId>)
    ensures RecordedFees(mem, entries) ==
            OwnFees(mem, entries) + LegFees(mem, entries, ids, true) + LegFees(mem, entries, ids, false)
  {
    if entries == [] {
    } else {
      RecordedFeesSplit(mem, entries[..|entries| - 1], ids);
    }
  }

  // ----- What the lines charge

  lemma SumFeesOne(t: Transaction)
    ensures SumFees([t]) == t.fee.msats
  {
    assert [t][..0] == [];
  }

  /** A custodial payment is charged its own fee and that of its transfer, or less where the sum saturates. */
  lemma CustodialFeeStep(s: Snapshot, k: nat)
    requires s.UniqueIds() && k < |s.custodial|
    ensures var own := OwnFees(s.mem, s.custodial[..k + 1]) - OwnFees(s.mem, s.custodial[..k]);
      var sends := SumSends(s.custodial, s.mem, Triggers(s.custodial[..k + 1], [], s.mem)) -
                   SumSends(s.custodial, s.mem, Triggers(s.custodial[..k], [], s.mem));
      var charged := SumFees(CustodialLine(s, s.custodial[k]));
      charged <= own + sends && (charged == own + sends <==> CustodialFits(s, s.custodial[k]))
  {
    var p := s.custodial[k];
    var id := Custodial(p.id);
    assert s.custodial[..k + 1][..k] == s.custodial[..k];
    if IsTrigger(s.mem, id) {
      var t := CustodialTransaction(p, s.mem[id].ty.ty, s.mem[id].time);
      NewCustodialTrigger(s, k);
      SumFeesOne(Bearing(s, t, id));
    } else if IsPlain(s.mem, id) {
      SumFeesOne(CustodialTransaction(p, s.mem[id].ty.ty, s.mem[id].time));
    }
  }

  /** A lightning payment is charged the fee of its transfer only. */
  lemma LightningFeeStep(s: Snapshot, k: nat)
    requires s.UniqueIds() && k < |s.lightning|
    ensures var sends := SumSends(s.custodial, s.mem, Triggers(s.custodial, s.lightning[..k + 1], s.mem)) -
                         SumSends(s.custodial, s.mem, Triggers(s.custodial, s.lightning[..k], s.mem));
      var charged := SumFees(LightningLine(s, s.lightning[k]));
      charged <= sends && (charged == sends <==> LightningFits(s, s.lightning[k]))
  {
    var p := s.lightning[k];
    var id := Lightning(p.id);
    assert s.lightning[..k + 1][..k] == s.lightning[..k];
    if IsTrigger(s.mem, id) {
      var t := LightningTransaction(p, s.mem[id].time);
      NewLightningTrigger(s, k);
      SumFeesOne(Bearing(s, t, id));
    } else if LightningLine(s, p) != [] {
      SumFeesOne(LightningLine(s, p)[0]);
      assert LightningLine(s, p) == [LightningLine(s, p)[0]];
    }
  }

  lemma CustodialLinesStep(s: Snapshot, k: nat)
    requires k < |s.custodial|
    ensures SumFees(CustodialLines(s, s.custodial[..k + 1])) ==
            SumFees(CustodialLines(s, s.custodial[..k])) + SumFees(CustodialLine(s, s.custodial[k]))
  {
    assert s.custodial[..k + 1][..k] == s.custodial[..k];
    SumFeesConcat(CustodialLines(s, s.custodial[..k]), CustodialLine(s, s.custodial[k]));
  }

  lemma LightningLinesStep(s: Snapshot, k: nat)
    requires k < |s.lightning|
    ensures SumFees(LightningLines(s, s.lightning[..k + 1])) ==
            SumFees(LightningLines(s, s.lightning[..k])) + SumFees(LightningLine(s, s.lightning[k]))
  {
    assert s.lightning[..k + 1][..k] == s.lightning[..k];
    SumFeesConcat(LightningLines(s, s.lightning[..k]), LightningLine(s, s.lightning[k]));
  }

  /** Step `k` charges at most what is due, and exactly that just when it `fits`. */
  ghost predicate FairStep(charged: nat -> int, due: nat -> int, fits: nat -> bool, k: nat) {
    && charged(k + 1) - charged(k) <= due(k + 1) - due(k)
    && (charged(k + 1) - charged(k) == due(k + 1) - due(k) <==> fits(k))
  }

  lemma {:induction false} FairSteps(charged: nat -> int, due: nat -> int, fits: nat -> bool, n: nat)
    requires charged(0) == due(0)
    requires forall k: nat :: k < n ==> FairStep(charged, due, fits, k)
    ensures charged(n) <= due(n)
    ensures charged(n) == due(n) <==> forall k: nat :: k < n ==> fits(k)
  {
    if n == 0 {
    } else {
      FairSteps(charged, due, fits, n - 1);
      assert FairStep(charged, due, fits, n - 1);
    }
  }

  lemma CustodialFees(s: Snapshot)
    requires s.UniqueIds()
    ensures var charged := SumFees(CustodialLines(s, s.custodial));
      var due := OwnFees(s.mem, s.custodial) + SumSends(s.custodial, s.mem, Triggers(s.custodial, [], s.mem));
      && charged <= due
      && (charged == due <==> forall k :: 0 <= k < |s.custodial| ==> CustodialFits(s, s.custodial[k]))
  {
    var n := |s.custodial|;
    var charged := (k: nat) => if k <= n then SumFees(CustodialLines(s, s.custodial[..k])) else 0;
    var due := (k: nat) =>
      if k > n then 0
      else OwnFees(s.mem, s.custodial[..k]) + SumSends(s.custodial, s.mem, Triggers(s.custodial[..k], [], s.mem));
    var fits := (k: nat) => k < n && CustodialFits(s, s.custodial[k]);
    forall k: nat | k < n
      ensures FairStep(charged, due, fits, k)
    {
      CustodialFeeStep(s, k);
      CustodialLinesStep(s, k);
    }
    FairSteps(charged, due, fits, n);
    assert s.custodial[..n] == s.custodial;
    assert forall k: nat :: k < n ==> (fits(k) <==> CustodialFits(s, s.custodial[k]));
  }

  lemma LightningFees(s: Snapshot)
    requires s.UniqueIds()
    ensures var charged := SumFees(LightningLines(s, s.lightning)) +
            SumSends(s.custodial, s.mem, Triggers(s.custodial, [], s.mem));
      var due := SumSends(s.custodial, s.mem, s.AllTriggers());
      && charged <= due
      && (charged == due <==> forall k :: 0 <= k < |s.lightning| ==> LightningFits(s, s.lightning[k]))
  {
    var n := |s.lightning|;
    var before := SumSends(s.custodial, s.mem, Triggers(s.custodial, [], s.mem));
    var charged := (k: nat) => if k <= n then SumFees(LightningLines(s, s.lightning[..k])) + before else 0;
    var due := (k: nat) =>
      if k <= n then SumSends(s.custodial, s.mem, Triggers(s.custodial, s.lightning[..k], s.mem)) else 0;
    var fits := (k: nat) => k < n && LightningFits(s, s.lightning[k]);
    forall k: nat | k < n
      ensures FairStep(charged, due, fits, k)
    {
      LightningFeeStep(s, k);
      LightningLinesStep(s, k);
    }
    FairSteps(charged, due, fits, n);
    assert s.lightning[..n] == s.lightning;
    assert forall k: nat :: k < n ==> (fits(k) <==> LightningFits(s, s.lightning[k]));
  }

  /**
   * The listing charges what the custodial service charged for payments with metadata, but for
   * transfers whose trigger is not listed; it charges exactly that just when no fee saturates.
   */
  lemma FeesConserved(s: Snapshot)
    requires s.UniqueIds() && OneLegPerTrigger(s.custodial, s.mem)
    ensures var charged := SumFees(UserHistory(s)) + LegFees(s.mem, s.custodial, s.AllTriggers(), false);
      && charged <= RecordedFees(s.mem, s.custodial)
      && (charged == RecordedFees(s.mem, s.custodial) <==> NoFeeSaturates(s))
  {
    CustodialFees(s);
    LightningFees(s);
    SumFeesConcat(CustodialLines(s, s.custodial), LightningLines(s, s.lightning));
    TriggersAre(s.custodial, s.lightning, s.mem);
    SendsAreLegFees(s.custodial, s.mem, s.AllTriggers());
    RecordedFeesSplit(s.mem, s.custodial, s.AllTriggers());
  }

  lemma {:induction false} NothingLost(mem: MetadataMap, entries: seq<CustodialPayment>, ids: seq<PaymentId>)
    requires forall p :: p in entries && IsTransfer(mem, Custodial(p.id)) ==> mem[Custodial(p.id)].ty.trigger in ids
    ensures LegFees(mem, entries, ids, false) == 0
  {
    if entries == [] {
    } else {
      assert entries[|entries| - 1] in entries;
      NothingLost(mem, entries[..|entries| - 1], ids);
    }
  }

  /** In a reachable store each trigger has one custodial leg at most. */
  lemma ReachableOneLeg(c: Codec, r: Run, i: nat, custodial: seq<CustodialPayment>)
    requires IsRun(c, r) && Careful(r) && i < |r.states|
    requires forall j, k :: 0 <= j < k < |custodial| ==> custodial[j].id != custodial[k].id
    ensures OneLegPerTrigger(custodial, r.states[i].store.mem)
  {
    var mem := r.states[i].store.mem;
    forall p | p in custodial && IsTransfer(mem, Custodial(p.id))
      ensures mem[Custodial(p.id)].ty.custodialPayment == p.id
    {
      TransfersHaveMarkedTriggers(c, r, i, Custodial(p.id));
    }
    forall j, k | 0 <= j < k < |custodial| &&
                  IsTransfer(mem, Custodial(custodial[j].id)) && IsTransfer(mem, Custodial(custodial[k].id))
      ensures mem[Custodial(custodial[j].id)].ty.trigger != mem[Custodial(custodial[k].id)].ty.trigger
    {
      if mem[Custodial(custodial[j].id)].ty.trigger == mem[Custodial(custodial[k].id)].ty.trigger {
        OneLegOfEachKind(c, r, i, Custodial(custodial[j].id), Custodial(custodial[k].id));
      }
    }
  }

  /**
   * At any moment of any run, also between the writes of a rebalance or after a restart: whatever lists
   * the services report, a listing that matches the history conserves fees if the lists hold the
   * trigger of every transfer they hold.
   */
  lemma ReachableFeesConserved(c: Codec, r: Run, i: nat, custodial: seq<CustodialPayment>,
                               lightning: seq<LightningPayment>, res: seq<Transaction>)
    requires IsRun(c, r) && Careful(r) && i < |r.states|
    requires Snapshot(custodial, lightning, r.states[i].store.mem).UniqueIds()
    requires multiset(res) == multiset(UserHistory(Snapshot(custodial, lightning, r.states[i].store.mem)))
    requires forall p :: p in custodial && r.states[i].store.HasTransfer(Custodial(p.id)) ==>
               r.states[i].store.mem[Custodial(p.id)].ty.trigger in
               Snapshot(custodial, lightning, r.states[i].store.mem).AllTriggers()
    ensures SumFees(res) <= RecordedFees(r.states[i].store.mem, custodial)
    ensures SumFees(res) == RecordedFees(r.states[i].store.mem, custodial) <==>
            NoFeeSaturates(Snapshot(custodial, lightning, r.states[i].store.mem))
  {
    var s := Snapshot(custodial, lightning, r.states[i].store.mem);
    ReachableOneLeg(c, r, i, custodial);
    FeesConserved(s);
    NothingLost(s.mem, custodial, s.AllTriggers());
    SumFeesPermuted(res, UserHistory(s));
  }
}
