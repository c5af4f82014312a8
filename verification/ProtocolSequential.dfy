/** The steps of the transition system, taken without interruption, do what the sequential code does. */
module ProtocolSequential {
  import opened Wrappers
  import opened Metadata
  import opened Store
  import opened Protocol
  import opened PollLoop
  import Pay
  import RebalanceFlow

  /** The three writes of a rebalance, one after the other, leave the records of an uninterrupted rebalance. */
  lemma BookkeepingAgrees(c: Codec, s: State, task: nat, now: nat)
    requires Enabled(s, TriggerMarked(task, now)) && s.store.HasPayment(s.rebalances[task].trigger)
    ensures var s1 := Step(c, s, TriggerMarked(task, now));
      && Enabled(s1, CustodialLegRecorded(task))
      && var s2 := Step(c, s1, CustodialLegRecorded(task));
      && Enabled(s2, LightningLegRecorded(task))
      && var s3 := Step(c, s2, LightningLegRecorded(task));
      && var r := s.rebalances[task];
      && s3.store == RebalanceFlow.Recorded(c, s.store, r.trigger, r.stage.custodialId, r.stage.lightningId, now)
      && s3.lock == None && s3.rebalances[task].stage.Finished?
  {
  }

  /** One entry of the scan: a read, and an insertion if the entry turns out to be new. */
  lemma ScanAgrees(c: Codec, s: State, mem: MetadataMap, entries: seq<CustodialPayment>, i: nat,
                   now: CustodialPaymentId -> nat)
    requires s.poll.Scanning? && i < |entries| && s.poll.left == entries[i..]
    requires ScanState(mem, s.store.mem, entries[..i], now, s.poll.newTxn, s.poll.latest)
    ensures var read := Step(c, s, PollRead);
      var t := if read.poll.Inserting? then Step(c, read, PollInsert(now(entries[i].id))) else read;
      && t.poll.Scanning? && t.poll.left == entries[i + 1..]
      && ScanState(mem, t.store.mem, entries[..i + 1], now, t.poll.newTxn, t.poll.latest)
  {
    var entry := entries[i];
    assert s.poll.left[0] == entry && s.poll.left[1..] == entries[i + 1..];
    assert entries[..i + 1] == entries[..i] + [entry];
    if entry.outbound {
      OutboundEntry(mem, s.store.mem, entries[..i], entry, now, s.poll.newTxn, s.poll.latest);
    } else if Custodial(entry.id) in s.store.mem {
      KnownEntry(mem, s.store.mem, entries[..i], entry, now, s.poll.newTxn, s.poll.latest);
    } else {
      NewEntry(mem, s.store.mem, entries[..i], entry, now, s.poll.newTxn, s.poll.latest);
    }
  }

  /** After the last entry, the decision charges whom the sequential pass charges, and dies where that dies. */
  lemma DecisionAgrees(c: Codec, s: State, mem: MetadataMap, entries: seq<CustodialPayment>,
                       now: CustodialPaymentId -> nat)
    requires s.poll.Scanning? && s.poll.left == []
    requires ScanState(mem, s.store.mem, entries, now, s.poll.newTxn, s.poll.latest)
    ensures var t := Step(c, s, PollDecide(true));
      if t.poll.Rebalancing? then
        && t.rebalances == s.rebalances + [Rebalance(t.rebalances[|s.rebalances|].trigger, AwaitingLock)]
        && ChargesRight(mem, entries, Charge(t.rebalances[|s.rebalances|].trigger))
      else t.poll.Dead? && ChargesRight(mem, entries, Dies)
  {
  }

  /** What the transition system makes of a payment that a service has accepted. */
  function PaidSteps(c: Codec, s: State, id: PaymentId, ty: PaymentType, now: nat): State {
    match id
    case Custodial(uuid) => Step(c, Step(c, s, CustodialPaid(uuid)), CustodialRecorded(uuid, ty, now))
    case Lightning(hash) => Step(c, Step(c, s, LightningPaid(hash)), LightningRecorded(hash, ty, now))
  }

  /** The two steps write the record that `pay` writes, and queue a rebalance for payments of the own node only. */
  lemma PaymentAgrees(c: Codec, s: State, order: Pay.Order, now: nat)
    ensures match Pay.Play(order, Pay.Schedule(order.methods), Pay.NOTHING_YET).paid
      case None => true
      case Some(paid) =>
        && paid.0.index < |order.methods|
        && var t := PaidSteps(c, s, paid.1, Pay.OutgoingType(order.methods[paid.0.index]), now);
        && t.store == s.store.Set(c, paid.1, Pay.Record(order, paid, now))
        && t.rebalances == (if paid.0.source.OwnNode? then s.rebalances + [Rebalance(paid.1, AwaitingLock)]
                            else s.rebalances)
  {
    Pay.PaidIsScheduled(order);
  }
}
