/** One pass of the poll loop over the custodial payment list, when nobody interferes. */
module PollLoop {
  import opened Wrappers
  import opened Amounts
  import opened Metadata
  import opened Store
  import opened Protocol

  datatype PollResult = NoTransfer | Charge(trigger: PaymentId) | Dies

  /** The inbound payments without metadata, in the order listed, each id once. */
  function NewOnes(mem: MetadataMap, entries: seq<CustodialPayment>): seq<Candidate> {
    if entries == [] then []
    else
      var before := entries[..|entries| - 1];
      var last := entries[|entries| - 1];
      if last.outbound || Custodial(last.id) in mem || last.id in InboundIds(before) then NewOnes(mem, before)
      else NewOnes(mem, before) + [Candidate(last.amount, last.id)]
  }

  /** The latest of the inbound payments that are already recorded as plain payments. */
  function LatestPlain(mem: MetadataMap, entries: seq<CustodialPayment>): Option<Latest> {
    if entries == [] then None
    else
      var before := LatestPlain(mem, entries[..|entries| - 1]);
      var last := entries[|entries| - 1];
      var id := Custodial(last.id);
      if !last.outbound && id in mem && mem[id].ty.Payment? && (before.None? || before.value.time < mem[id].time) then
        Some(Latest(mem[id].time, last.id))
      else before
  }

  lemma {:induction false} NewOnesAre(mem: MetadataMap, entries: seq<CustodialPayment>)
    ensures forall c :: c in NewOnes(mem, entries) ==>
              Custodial(c.id) !in mem && c.id in InboundIds(entries) &&
              exists e :: e in entries && !e.outbound && e.id == c.id && e.amount == c.amount
    ensures NewOnes(mem, entries) == [] <==> forall id :: id in InboundIds(entries) ==> Custodial(id) in mem
  {
    if entries == [] {
    } else {
      var n := |entries| - 1;
      NewOnesAre(mem, entries[..n]);
      assert entries == entries[..n] + [entries[n]];
      assert entries[n] in entries;
    }
  }

  /** Every inbound payment without metadata is a candidate once, with the amount of its first entry in the list. */
  lemma {:induction false} NewOnesComplete(mem: MetadataMap, entries: seq<CustodialPayment>, k: nat)
    requires k < |entries| && !entries[k].outbound && Custodial(entries[k].id) !in mem
    requires entries[k].id !in InboundIds(entries[..k])
    ensures Candidate(entries[k].amount, entries[k].id) in NewOnes(mem, entries)
  {
    var n := |entries| - 1;
    if k < n {
      assert entries[..n][..k] == entries[..k];
      NewOnesComplete(mem, entries[..n], k);
    }
  }

  lemma {:induction false} NewOnesDistinct(mem: MetadataMap, entries: seq<CustodialPayment>)
    ensures forall i, j :: 0 <= i < j < |NewOnes(mem, entries)| ==>
              NewOnes(mem, entries)[i].id != NewOnes(mem, entries)[j].id
  {
    if entries == [] {
    } else {
      var n := |entries| - 1;
      NewOnesDistinct(mem, entries[..n]);
      NewOnesAre(mem, entries[..n]);
      assert forall i :: 0 <= i < |NewOnes(mem, entries[..n])| ==>
        NewOnes(mem, entries[..n])[i] in NewOnes(mem, entries[..n]);
    }
  }

  predicate PlainInbound(mem: MetadataMap, entry: CustodialPayment) {
    !entry.outbound && IsPlain(mem, Custodial(entry.id))
  }

  /** The entry at `k` is inbound and plain, and later than all such entries before it. */
  ghost predicate LaterThanBefore(mem: MetadataMap, entries: seq<CustodialPayment>, k: nat) {
    && k < |entries| && PlainInbound(mem, entries[k])
    && (forall j :: 0 <= j < k && PlainInbound(mem, entries[j]) ==>
          mem[Custodial(entries[j].id)].time < mem[Custodial(entries[k].id)].time)
  }

  /** Of several payments with the latest time, the fallback is the first in the list. */
  lemma {:induction false} LatestPlainFirst(mem: MetadataMap, entries: seq<CustodialPayment>)
    ensures LatestPlain(mem, entries).Some? ==>
              exists k: nat :: LaterThanBefore(mem, entries, k) && entries[k].id == LatestPlain(mem, entries).value.id
  {
    if entries == [] {
    } else {
      var n := |entries| - 1;
      var before, after := LatestPlain(mem, entries[..n]), LatestPlain(mem, entries);
      if before.Some? && after == before {
        LatestPlainFirst(mem, entries[..n]);
        var k: nat :| LaterThanBefore(mem, entries[..n], k) && entries[..n][k].id == before.value.id;
        assert forall j :: 0 <= j < n ==> entries[..n][j] == entries[j];
        assert LaterThanBefore(mem, entries, k);
      } else if after.Some? {
        LatestPlainIs(mem, entries[..n]);
        assert LaterThanBefore(mem, entries, n) by {
          forall j | 0 <= j < n && PlainInbound(mem, entries[j])
            ensures mem[Custodial(entries[j].id)].time < mem[Custodial(entries[n].id)].time
          {
            assert entries[..n][j] in entries[..n];
            assert entries[j].id in InboundIds(entries[..n]);
          }
        }
      }
    }
  }

  lemma {:induction false} LatestPlainIs(mem: MetadataMap, entries: seq<CustodialPayment>)
    ensures var latest := LatestPlain(mem, entries);
      && (latest.None? <==>
            forall id :: id in InboundIds(entries) && Custodial(id) in mem ==> !mem[Custodial(id)].ty.Payment?)
      && (latest.Some? ==>
          && latest.value.id in InboundIds(entries) && Custodial(latest.value.id) in mem
          && mem[Custodial(latest.value.id)].ty.Payment? && mem[Custodial(latest.value.id)].time == latest.value.time
          && (forall id :: id in InboundIds(entries) && Custodial(id) in mem && mem[Custodial(id)].ty.Payment? ==>
                mem[Custodial(id)].time <= latest.value.time))
  {
    if entries == [] {
    } else {
      var n := |entries| - 1;
      LatestPlainIs(mem, entries[..n]);
      assert entries == entries[..n] + [entries[n]];
    }
  }

  /** Every inbound payment of the list gets metadata; nothing else changes. */
  ghost predicate InboundRecorded(a: MetadataMap, b: MetadataMap, ids: set<CustodialPaymentId>,
                                  now: CustodialPaymentId -> nat)
  {
    && (forall id :: id in a ==> id in b && b[id] == a[id])
    && (forall id :: id in b && id !in a ==>
          id.Custodial? && id.id in ids && b[id] == TxMetadata(now(id.id), Payment(IncomingLightning)))
    && (forall id: CustodialPaymentId :: id in ids ==> Custodial(id) in b)
  }

  /** The scan has reached `before`, with this much in hand. */
  ghost predicate ScanState(a: MetadataMap, b: MetadataMap, before: seq<CustodialPayment>,
                            now: CustodialPaymentId -> nat,
                            newTxn: seq<Candidate>, latest: Option<Latest>) {
    && InboundRecorded(a, b, InboundIds(before), now)
    && newTxn == NewOnes(a, before)
    && (newTxn == [] ==> latest == LatestPlain(a, before))
  }

  lemma OutboundEntry(a: MetadataMap, b: MetadataMap, before: seq<CustodialPayment>, entry: CustodialPayment,
                      now: CustodialPaymentId -> nat, newTxn: seq<Candidate>, latest: Option<Latest>)
    requires ScanState(a, b, before, now, newTxn, latest) && entry.outbound
    ensures ScanState(a, b, before + [entry], now, newTxn, latest)
  {
    assert (before + [entry])[..|before|] == before;
  }

  lemma KnownEntry(a: MetadataMap, b: MetadataMap, before: seq<CustodialPayment>, entry: CustodialPayment,
                   now: CustodialPaymentId -> nat, newTxn: seq<Candidate>, latest: Option<Latest>)
    requires ScanState(a, b, before, now, newTxn, latest) && !entry.outbound && Custodial(entry.id) in b
    ensures var metadata := b[Custodial(entry.id)];
      ScanState(a, b, before + [entry], now, newTxn,
                if metadata.ty.Payment? && (latest.None? || latest.value.time < metadata.time) then
                  Some(Latest(metadata.time, entry.id))
                else latest)
  {
    NewOnesAre(a, before);
    assert (before + [entry])[..|before|] == before;
  }

  lemma NewEntry(a: MetadataMap, b: MetadataMap, before: seq<CustodialPayment>, entry: CustodialPayment,
                 now: CustodialPaymentId -> nat, newTxn: seq<Candidate>, latest: Option<Latest>)
    requires ScanState(a, b, before, now, newTxn, latest) && !entry.outbound && Custodial(entry.id) !in b
    ensures ScanState(a, b[Custodial(entry.id) := TxMetadata(now(entry.id), Payment(IncomingLightning))],
                      before + [entry], now,
                      newTxn + [Candidate(entry.amount, entry.id)], latest)
  {
    assert (before + [entry])[..|before|] == before;
  }

  /** Whom a pass charges: the smallest new payment, or else the latest plain one, or nobody. */
  ghost predicate ChargesRight(mem: MetadataMap, entries: seq<CustodialPayment>, r: PollResult) {
    var newTxn, latest := NewOnes(mem, entries), LatestPlain(mem, entries);
    match Victim(newTxn, latest)
    case Some(id) => r == Charge(Custodial(id))
    case None => r == Dies
  }

  /** `now(id)` is the time at which the entry of `id` is reached; `transfer` is the rebalance decision. */
  method PollOnce(store: TxMetadataStore, entries: seq<CustodialPayment>, now: CustodialPaymentId -> nat,
                  transfer: bool)
    returns (r: PollResult)
    requires store.Valid()
    modifies store, store.store
    ensures store.Valid()
    ensures InboundRecorded(old(store.txMetadata), store.txMetadata, InboundIds(entries), now)
    ensures if transfer then ChargesRight(old(store.txMetadata), entries, r) else r.NoTransfer?
  {
    ghost var mem := store.txMetadata;
    var newTxn: seq<Candidate> := [];
    var latest: Option<Latest> := None;
    for i := 0 to |entries|
      invariant store.Valid()
      invariant ScanState(mem, store.txMetadata, entries[..i], now, newTxn, latest)
    {
      var entry := entries[i];
      assert entries[..i + 1] == entries[..i] + [entry];
      if entry.outbound {
        OutboundEntry(mem, store.txMetadata, entries[..i], entry, now, newTxn, latest);
      } else if Custodial(entry.id) in store.txMetadata {
        KnownEntry(mem, store.txMetadata, entries[..i], entry, now, newTxn, latest);
        var metadata := store.txMetadata[Custodial(entry.id)];
        if metadata.ty.Payment? && (latest.None? || latest.value.time < metadata.time) {
          latest := Some(Latest(metadata.time, entry.id));
        }
      } else {
        NewEntry(mem, store.txMetadata, entries[..i], entry, now, newTxn, latest);
        newTxn := newTxn + [Candidate(entry.amount, entry.id)];
        store.Insert(Custodial(entry.id), TxMetadata(now(entry.id), Payment(IncomingLightning)));
      }
    }
    assert entries[..|entries|] == entries;
    if !transfer {
      return NoTransfer;
    }
    if newTxn != [] {
      return Charge(Custodial(Smallest(newTxn).id));
    }
    r := if latest.Some? then Charge(Custodial(latest.value.id)) else Dies;
  }

  /** What that means: the charged payment is an inbound one of the list, and a plain payment after the pass. */
  lemma ChargedIsPlain(a: MetadataMap, b: MetadataMap, entries: seq<CustodialPayment>, now: CustodialPaymentId -> nat,
                       r: PollResult)
    requires InboundRecorded(a, b, InboundIds(entries), now) && ChargesRight(a, entries, r)
    ensures r.Charge? ==> r.trigger.Custodial? && r.trigger.id in InboundIds(entries) && IsPlain(b, r.trigger)
    ensures r.Charge? && r.trigger !in a ==>
            forall c :: c in NewOnes(a, entries) ==>
              exists least :: least in NewOnes(a, entries) && Custodial(least.id) == r.trigger &&
                              least.amount.msats <= c.amount.msats &&
                              (least.amount.msats == c.amount.msats ==> least.id <= c.id)
    ensures r.Charge? && r.trigger in a ==>
            forall id :: id in InboundIds(entries) ==>
              Custodial(id) in a && (a[Custodial(id)].ty.Payment? ==> a[Custodial(id)].time <= a[r.trigger].time)
  {
    NewOnesAre(a, entries);
    LatestPlainIs(a, entries);
  }

  /** The loop dies exactly when every inbound payment it is shown is recorded, and none as a plain payment. */
  lemma DiesExactly(a: MetadataMap, entries: seq<CustodialPayment>, r: PollResult)
    requires ChargesRight(a, entries, r)
    ensures r.Dies? <==>
            forall id :: id in InboundIds(entries) ==> Custodial(id) in a && !a[Custodial(id)].ty.Payment?
  {
    NewOnesAre(a, entries);
    LatestPlainIs(a, entries);
  }
}
