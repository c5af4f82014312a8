/** What the premises of the protocol are needed for: exact conditions, and runs that break without them. */
module ProtocolLimits {
  import opened Wrappers
  import opened Amounts
  import opened Metadata
  import opened Store
  import opened Protocol
  import opened ProtocolSafety
  import opened ProtocolRuns

  /** Each transfer's trigger is marked, and so is the trigger of each transfer about to be written. */
  ghost predicate LedgerSound(s: State) {
    LegsSound(s.store) && RecordingsSound(s)
  }

  /**
   * Recording a lightning payment keeps the ledger sound exactly when no transfer names it as its
   * trigger and no rebalance that has marked it is still writing its legs.
   */
  lemma RetryBreaksExactly(c: Codec, s: State, e: Event)
    requires CoreInv(c, s) && Enabled(s, e) && e.LightningRecorded?
    ensures LedgerSound(Step(c, s, e)) <==> !InUse(s, Lightning(e.lightningId))
  {
    var t := Step(c, s, e);
    var key := Lightning(e.lightningId);
    RecordedKeyFree(s, e);
    RecordedPayment(c, s, e);
    RecordedTasks(c, s, e);
    if InUse(s, key) {
      UseWithoutMark(s, t, key);
    } else {
      LedgerKept(s, t);
    }
  }

  /** If the trigger of a transfer, or of one about to be written, is not marked, the ledger is not sound. */
  lemma UseWithoutMark(s: State, t: State, key: PaymentId)
    requires SameTransfers(s.store, t.store) && SameRecordings(s, t)
    requires InUse(s, key) && !t.store.HasTrigger(key)
    ensures !LedgerSound(t)
  {
    if leg :| LegAt(s.store, leg, key) {
      assert t.store.HasTransfer(leg) && !LegSound(t.store, leg);
    } else {
      var task: nat :| s.At(task) && s.rebalances[task].stage.Recording() && s.rebalances[task].trigger == key;
      assert t.At(task) && !RecordingSound(t, t.rebalances[task]);
    }
  }

  /** Over whole runs: the ledger is sound in every state exactly when every such recording is harmless. */
  lemma LedgerSoundExactly(c: Codec, r: Run)
    requires IsRun(c, r)
    ensures (forall i {:trigger LedgerSound(r.states[i])} :: 0 <= i < |r.states| ==> LedgerSound(r.states[i])) <==>
              Careful(r)
  {
    if Careful(r) {
      forall i | 0 <= i < |r.states|
        ensures LedgerSound(r.states[i])
      {
        RunCore(c, r, i);
      }
    }
    if forall i {:trigger LedgerSound(r.states[i])} :: 0 <= i < |r.states| ==> LedgerSound(r.states[i]) {
      SoundIsCareful(c, r, |r.events|);
    }
  }

  lemma {:induction false} SoundIsCareful(c: Codec, r: Run, n: nat)
    requires IsRun(c, r) && n < |r.states|
    requires forall i {:trigger LedgerSound(r.states[i])} :: 0 <= i < |r.states| ==> LedgerSound(r.states[i])
    ensures CoreInv(c, r.states[n])
    ensures forall i {:trigger Harmless(r.states[i], r.events[i])} :: 0 <= i < n ==> Harmless(r.states[i], r.events[i])
  {
    if n == 0 {
      StartInv(c);
    } else {
      SoundIsCareful(c, r, n - 1);
      assert LedgerSound(r.states[n]);
      SoundStep(c, r, n - 1);
    }
  }

  lemma SoundStep(c: Codec, r: Run, i: nat)
    requires IsRun(c, r) && i < |r.events| && CoreInv(c, r.states[i]) && LedgerSound(r.states[i + 1])
    ensures Harmless(r.states[i], r.events[i]) && CoreInv(c, r.states[i + 1])
  {
    assert StepAt(c, r, i);
    if r.events[i].LightningRecorded? {
      RetryBreaksExactly(c, r.states[i], r.events[i]);
    }
    StepKeepsCore(c, r.states[i], r.events[i]);
  }

  // ----- Runs, one event at a time

  const EMPTY_RUN := Run([START], [])

  ghost function Last(r: Run): State
    requires r.states != []
  {
    r.states[|r.states| - 1]
  }

  lemma NextForward(c: Codec, before: Run, e: Event)
    requires IsRun(c, before) && Enabled(Last(before), e)
    ensures Forward(Last(before).store, Step(c, Last(before), e).store)
  {
    RunBase(c, before, |before.states| - 1);
    StepForward(c, Last(before), e);
  }

  lemma ForwardTransitive(a: StoreState, b: StoreState, d: StoreState)
    requires Forward(a, b) && Forward(b, d)
    ensures Forward(a, d)
  {
  }

  /** The run goes on with `e`. */
  lemma Then(c: Codec, before: Run, e: Event) returns (r: Run)
    requires IsRun(c, before) && Enabled(Last(before), e) && FreshIds(Last(before), e)
    ensures IsRun(c, r) && Last(r) == Step(c, Last(before), e)
    ensures r.states == before.states + [Last(r)] && r.events == before.events + [e]
    ensures Forward(Last(before).store, Last(r).store)
    ensures Safe(before) && UpsertSafe(Last(before), e) ==> Safe(r)
    ensures NoRetries(before) && NeverReissued(Last(before), e) ==> NoRetries(r)
  {
    r := Run(before.states + [Step(c, Last(before), e)], before.events + [e]);
    forall i | 0 <= i < |r.events|
      ensures StepAt(c, r, i)
    {
      assert i < |before.events| ==> StepAt(c, before, i);
    }
    NextForward(c, before, e);
  }

  /** A wallet that has only paid over lightning, always with the payment id `x`; its rebalances are queued. */
  ghost predicate OnlyPaid(s: State, x: Bytes32) {
    && s.lock == None && s.pendingLightning == multiset{} && s.marks == []
    && s.outbound == {} && s.inbound == {} && s.received == {} && s.sent <= {x}
    && (forall id :: id in s.store.mem ==> id == Lightning(x) && s.store.HasPayment(id))
  }

  /** A payment over lightning is made and recorded, and its rebalance queued. */
  lemma PayOnce(c: Codec, before: Run, x: Bytes32, now: nat) returns (r: Run)
    requires IsRun(c, before) && Safe(before) && OnlyPaid(Last(before), x)
    ensures IsRun(c, r) && Safe(r) && OnlyPaid(Last(r), x)
    ensures Last(r).rebalances == Last(before).rebalances + [Rebalance(Lightning(x), AwaitingLock)]
    ensures Last(r).sent == {x} && Last(r).store.HasPayment(Lightning(x))
  {
    var between := Then(c, before, LightningPaid(x));
    r := Then(c, between, LightningRecorded(x, OutgoingLightningBolt11(None), now));
  }

  lemma PayTwice(c: Codec, x: Bytes32) returns (r: Run)
    requires c.Lawful()
    ensures IsRun(c, r) && Safe(r) && OnlyPaid(Last(r), x)
    ensures Last(r).rebalances == [Rebalance(Lightning(x), AwaitingLock), Rebalance(Lightning(x), AwaitingLock)]
    ensures Last(r).sent == {x} && Last(r).store.HasPayment(Lightning(x))
  {
    assert IsRun(c, EMPTY_RUN);
    r := PayOnce(c, EMPTY_RUN, x, 1);
    r := PayOnce(c, r, x, 2);
  }

  /** A queued rebalance gets as far as the marking step. */
  lemma ReachMarking(c: Codec, before: Run, task: nat, custodialId: CustodialPaymentId, lightningId: Bytes32)
    returns (r: Run)
    requires IsRun(c, before)
    requires Last(before).At(task) && Last(before).rebalances[task].stage.AwaitingLock? && Last(before).lock == None
    requires custodialId !in Last(before).outbound && custodialId !in Last(before).inbound
    requires lightningId !in Last(before).received && lightningId !in Last(before).sent
    ensures IsRun(c, r) && (Safe(before) ==> Safe(r)) && (NoRetries(before) ==> NoRetries(r))
    ensures var s, t := Last(before), Last(r);
      && t.rebalances == s.rebalances[task := Rebalance(s.rebalances[task].trigger, Received(custodialId, lightningId))]
      && t.poll == s.poll && t.lock == Some(task) && t.store == s.store
      && t.pendingLightning == s.pendingLightning && t.inbound == s.inbound
      && t.outbound == s.outbound + {custodialId} && t.received == s.received + {lightningId} && t.sent == s.sent
      && t.marks == s.marks
  {
    r := before;
    r := Then(c, r, LockAcquired(task));
    r := Then(c, r, RebalancePaid(task, custodialId));
    r := Then(c, r, ReceiptSeen(task, lightningId));
  }

  /** A task that has marked its trigger records both legs. */
  lemma RecordLegs(c: Codec, before: Run, task: nat) returns (r: Run)
    requires IsRun(c, before)
    requires Last(before).At(task) && Last(before).rebalances[task].stage.Marked?
    requires Last(before).store.HasTrigger(Last(before).rebalances[task].trigger)
    requires Lightning(Last(before).rebalances[task].stage.lightningId) != Last(before).rebalances[task].trigger
    requires Custodial(Last(before).rebalances[task].stage.custodialId) != Last(before).rebalances[task].trigger
    ensures IsRun(c, r) && (Safe(before) ==> Safe(r)) && (NoRetries(before) ==> NoRetries(r))
    ensures Forward(Last(before).store, Last(r).store)
    ensures var s, t := Last(before), Last(r);
      && t.rebalances == s.rebalances[task := Rebalance(s.rebalances[task].trigger, Finished)]
      && t.poll == s.poll && t.lock == None && t.pendingLightning == s.pendingLightning
      && t.inbound == s.inbound && t.outbound == s.outbound && t.received == s.received && t.sent == s.sent
      && t.marks == s.marks && t.store.HasTrigger(s.rebalances[task].trigger)
      && LegAt(t.store, Lightning(s.rebalances[task].stage.lightningId), s.rebalances[task].trigger)
  {
    var between := Then(c, before, CustodialLegRecorded(task));
    r := Then(c, between, LightningLegRecorded(task));
    ForwardTransitive(Last(before).store, Last(between).store, Last(r).store);
  }

  /** The task marks its trigger and records both legs. */
  lemma FinishRecording(c: Codec, before: Run, task: nat) returns (r: Run)
    requires IsRun(c, before)
    requires Last(before).At(task) && Last(before).rebalances[task].stage.Received?
    requires Last(before).store.HasPayment(Last(before).rebalances[task].trigger)
    requires Lightning(Last(before).rebalances[task].stage.lightningId) != Last(before).rebalances[task].trigger
    requires Custodial(Last(before).rebalances[task].stage.custodialId) != Last(before).rebalances[task].trigger
    ensures IsRun(c, r) && (Safe(before) ==> Safe(r)) && (NoRetries(before) ==> NoRetries(r))
    ensures Forward(Last(before).store, Last(r).store)
    ensures var s, t := Last(before), Last(r);
      && t.rebalances == s.rebalances[task := Rebalance(s.rebalances[task].trigger, Finished)]
      && t.poll == s.poll && t.lock == None && t.pendingLightning == s.pendingLightning
      && t.inbound == s.inbound && t.outbound == s.outbound && t.received == s.received && t.sent == s.sent
      && t.marks == s.marks + [s.rebalances[task].trigger] && t.store.HasTrigger(s.rebalances[task].trigger)
      && LegAt(t.store, Lightning(s.rebalances[task].stage.lightningId), s.rebalances[task].trigger)
  {
    var between := Then(c, before, TriggerMarked(task, 3));
    r := RecordLegs(c, between, task);
    ForwardTransitive(Last(before).store, Last(between).store, Last(r).store);
  }

  /**
   * Without the premise that no invoice is paid twice, the `expect` on marking does fire, even in a run
   * that never records a marked payment anew: two rebalances are queued for the same payment.
   */
  lemma RetryCanPanic(c: Codec, x: Bytes32, y: Bytes32, z: Bytes32)
    requires c.Lawful() && x != y && x != z && y != z
    ensures exists r: Run :: IsRun(c, r) && Safe(r) && Last(r).At(1) && Last(r).rebalances[1].stage.Panicked?
  {
    var r := PayTwice(c, x);
    r := ReachMarking(c, r, 0, 0, y);
    r := FinishRecording(c, r, 0);
    r := ReachMarking(c, r, 1, 1, z);
    r := Then(c, r, TriggerMarked(1, 4));
    assert Last(r).At(1) && Last(r).rebalances[1].stage.Panicked?;
  }

  /**
   * But having been marked before is not enough for the `expect` to fire: recorded anew in between, the
   * payment is marked a second time, and then has legs of two rebalances.
   */
  lemma RetryCanMarkTwice(c: Codec, x: Bytes32, y: Bytes32, z: Bytes32)
    requires c.Lawful() && x != y && x != z && y != z
    ensures exists r: Run :: IsRun(c, r) && Last(r).marks == [Lightning(x), Lightning(x)] &&
                             LegAt(Last(r).store, Lightning(y), Lightning(x)) &&
                             LegAt(Last(r).store, Lightning(z), Lightning(x))
  {
    var r := PayTwice(c, x);
    r := ReachMarking(c, r, 0, 0, y);
    r := FinishRecording(c, r, 0);
    r := Then(c, r, LightningPaid(x));
    r := Then(c, r, LightningRecorded(x, OutgoingLightningBolt11(None), 5));
    r := ReachMarking(c, r, 1, 1, z);
    r := FinishRecording(c, r, 1);
    assert LegAt(Last(r).store, Lightning(y), Lightning(x));
  }

  /** Recording a marked payment anew does leave a transfer whose trigger is not marked. */
  lemma RetryCanOrphanTransfers(c: Codec, x: Bytes32, y: Bytes32)
    requires c.Lawful() && x != y
    ensures exists r: Run :: IsRun(c, r) && !LegsSound(Last(r).store)
  {
    var r := PayTwice(c, x);
    r := ReachMarking(c, r, 0, 0, y);
    r := FinishRecording(c, r, 0);
    r := Then(c, r, LightningPaid(x));
    var t := Then(c, r, LightningRecorded(x, OutgoingLightningBolt11(None), 5));
    assert LegAt(Last(t).store, Lightning(y), Lightning(x));
    LegWithoutMark(Last(t).store, Lightning(y), Lightning(x));
  }

  /**
   * A retry between the mark and the legs breaks the ledger too, but only the next write shows it: all
   * states before that write are sound as far as transfers go, and no transfer named the retried payment.
   */
  lemma RetryBetweenWrites(c: Codec, x: Bytes32, y: Bytes32)
    requires c.Lawful() && x != y
    ensures exists r: Run ::
              && IsRun(c, r) && r.events != [] && r.events[|r.events| - 1].CustodialLegRecorded?
              && (forall i :: 0 <= i < |r.events| ==> LegsSound(r.states[i].store))
              && !LegsSound(Last(r).store)
  {
    var before := MarkedThenPaid(c, x, y);
    SoundSoFar(c, before);
    RetryThenLeg(c, Last(before), x, y);
    var r := SoundUntilLast(c, before, LightningRecorded(x, OutgoingLightningBolt11(None), 4), CustodialLegRecorded(0));
  }

  /** A run with sound transfers goes on with two events, of which only the second makes them unsound. */
  lemma SoundUntilLast(c: Codec, before: Run, a: Event, b: Event) returns (r: Run)
    requires IsRun(c, before) && forall i :: 0 <= i < |before.states| ==> LegsSound(before.states[i].store)
    requires Enabled(Last(before), a) && FreshIds(Last(before), a)
    requires Enabled(Step(c, Last(before), a), b) && FreshIds(Step(c, Last(before), a), b)
    requires LegsSound(Step(c, Last(before), a).store)
    ensures IsRun(c, r) && r.events == before.events + [a, b]
    ensures forall i :: 0 <= i < |r.events| ==> LegsSound(r.states[i].store)
    ensures Last(r) == Step(c, Step(c, Last(before), a), b)
  {
    var between := Then(c, before, a);
    r := Then(c, between, b);
  }

  lemma RetryThenLeg(c: Codec, s: State, x: Bytes32, y: Bytes32)
    requires s.rebalances == [Rebalance(Lightning(x), Marked(0, y, 3))] && x in s.pendingLightning
    requires forall id :: id in s.store.mem ==> id == Lightning(x)
    ensures var retried := Step(c, s, LightningRecorded(x, OutgoingLightningBolt11(None), 4));
      && LegsSound(retried.store) && Enabled(retried, CustodialLegRecorded(0))
      && !LegsSound(Step(c, retried, CustodialLegRecorded(0)).store)
  {
    var retried := Step(c, s, LightningRecorded(x, OutgoingLightningBolt11(None), 4));
    assert forall id :: id in retried.store.mem ==> id == Lightning(x);
    LegWithoutMark(Step(c, retried, CustodialLegRecorded(0)).store, Custodial(0), Lightning(x));
  }

  lemma LegWithoutMark(store: StoreState, leg: PaymentId, trigger: PaymentId)
    requires LegAt(store, leg, trigger) && !store.HasTrigger(trigger)
    ensures !LegsSound(store)
  {
    assert !LegSound(store, leg);
  }

  /** The invoice with payment id `x` is paid, its rebalance has marked it, and it is paid once more. */
  lemma MarkedThenPaid(c: Codec, x: Bytes32, y: Bytes32) returns (r: Run)
    requires c.Lawful() && x != y
    ensures IsRun(c, r) && Safe(r)
    ensures var s := Last(r);
      && s.rebalances == [Rebalance(Lightning(x), Marked(0, y, 3))] && x in s.pendingLightning
      && (forall id :: id in s.store.mem ==> id == Lightning(x)) && s.store.HasTrigger(Lightning(x))
  {
    assert IsRun(c, EMPTY_RUN);
    r := PayOnce(c, EMPTY_RUN, x, 1);
    r := ReachMarking(c, r, 0, 0, y);
    r := Then(c, r, TriggerMarked(0, 3));
    r := Then(c, r, LightningPaid(x));
  }

  lemma SoundSoFar(c: Codec, r: Run)
    requires IsRun(c, r) && Safe(r)
    ensures forall i :: 0 <= i < |r.states| ==> LegsSound(r.states[i].store)
  {
    forall i | 0 <= i < |r.states|
      ensures LegsSound(r.states[i].store)
    {
      RunInv(c, r, i);
    }
  }

  // ----- The poll loop can die

  /** A pass over one inbound payment that is known already, ending in the decision to transfer. */
  lemma PollKnown(c: Codec, before: Run, p: CustodialPayment) returns (r: Run)
    requires IsRun(c, before) && Safe(before) && NoRetries(before)
    requires Last(before).poll.Sleeping? && !p.outbound && p.id !in Last(before).outbound
    requires Custodial(p.id) in Last(before).store.mem && !Last(before).store.HasPayment(Custodial(p.id))
    ensures IsRun(c, r) && NoRetries(r) && Last(r).poll.Dead?
  {
    assert InboundIds([p]) == {p.id} by {
      assert p in [p];
    }
    r := Then(c, before, PollList([p]));
    r := Then(c, r, PollRead);
    assert Last(r).poll == Scanning([], [], None);
    r := Then(c, r, PollDecide(true));
  }

  /** A payment comes in, and the poll loop records it. */
  lemma PollFinds(c: Codec, p: CustodialPayment) returns (r: Run)
    requires c.Lawful() && !p.outbound
    ensures IsRun(c, r) && Safe(r) && NoRetries(r)
    ensures var s := Last(r);
      && s.rebalances == [] && s.poll == Scanning([], [Candidate(p.amount, p.id)], None)
      && s.lock == None && s.store.HasPayment(Custodial(p.id))
      && s.outbound == {} && s.inbound == {p.id} && s.received == {} && s.sent == {}
  {
    assert InboundIds([p]) == {p.id} by {
      assert p in [p];
    }
    assert IsRun(c, EMPTY_RUN);
    r := Then(c, EMPTY_RUN, PollList([p]));
    r := Then(c, r, PollRead);
    r := Then(c, r, PollInsert(1));
  }

  /**
   * The poll loop's `expect` fires even if no invoice is ever paid twice: the only inbound payment has
   * already paid for a rebalance, and there is balance to move again.
   */
  lemma PollCanDie(c: Codec, p: CustodialPayment, other: CustodialPaymentId, y: Bytes32)
    requires c.Lawful() && !p.outbound && other != p.id
    ensures exists r: Run :: IsRun(c, r) && NoRetries(r) && Last(r).poll.Dead?
  {
    var r := PollFinds(c, p);
    r := Then(c, r, PollDecide(true));
    r := ReachMarking(c, r, 0, other, y);
    r := FinishRecording(c, r, 0);
    r := Then(c, r, PollReturn);
    r := PollKnown(c, r, p);
  }
}
