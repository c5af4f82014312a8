/** Whole runs: what holds in every reachable state, and what can and cannot panic. */
module ProtocolRuns {
  import opened Wrappers
  import opened Metadata
  import opened Store
  import opened Protocol
  import opened ProtocolSafety

  datatype Run = Run(states: seq<State>, events: seq<Event>)

  /** The `i`-th event was possible, and led to the next state. */
  ghost predicate StepAt(c: Codec, r: Run, i: nat)
    requires |r.states| == |r.events| + 1 && i < |r.events|
  {
    && Enabled(r.states[i], r.events[i]) && FreshIds(r.states[i], r.events[i])
    && r.states[i + 1] == Step(c, r.states[i], r.events[i])
  }

  /** Any interleaving of the tasks, with restarts anywhere, from an empty wallet. */
  ghost predicate IsRun(c: Codec, r: Run) {
    && c.Lawful()
    && |r.states| == |r.events| + 1
    && r.states[0] == START
    && (forall i :: 0 <= i < |r.events| ==> StepAt(c, r, i))
  }

  /** No payment that has triggered a rebalance is recorded anew. */
  ghost predicate Safe(r: Run)
    requires |r.states| == |r.events| + 1
  {
    forall i {:trigger UpsertSafe(r.states[i], r.events[i])} ::
      0 <= i < |r.events| ==> UpsertSafe(r.states[i], r.events[i])
  }

  /** The weaker condition: no payment is recorded anew while a transfer names it or is about to. */
  ghost predicate Careful(r: Run)
    requires |r.states| == |r.events| + 1
  {
    forall i {:trigger Harmless(r.states[i], r.events[i])} :: 0 <= i < |r.events| ==> Harmless(r.states[i], r.events[i])
  }

  /** No invoice is paid twice. */
  ghost predicate NoRetries(r: Run)
    requires |r.states| == |r.events| + 1
  {
    forall i {:trigger NeverReissued(r.states[i], r.events[i])} ::
      0 <= i < |r.events| ==> NeverReissued(r.states[i], r.events[i])
  }

  /** The base, and what it says about transfers, holds in every state of every run. */
  lemma {:induction false} RunBase(c: Codec, r: Run, i: nat)
    requires IsRun(c, r) && i < |r.states|
    ensures BaseInv(c, r.states[i]) && LegInv(r.states[i])
  {
    if i == 0 {
      StartInv(c);
    } else {
      RunBase(c, r, i - 1);
      assert StepAt(c, r, i - 1);
      StepKeepsBase(c, r.states[i - 1], r.events[i - 1]);
      StepKeepsLegs(c, r.states[i - 1], r.events[i - 1]);
    }
  }

  lemma {:induction false} RunInv(c: Codec, r: Run, i: nat)
    requires IsRun(c, r) && Safe(r) && i < |r.states|
    ensures Inv(c, r.states[i])
  {
    if i == 0 {
      StartInv(c);
    } else {
      RunInv(c, r, i - 1);
      assert StepAt(c, r, i - 1) && UpsertSafe(r.states[i - 1], r.events[i - 1]);
      StepKeepsInv(c, r.states[i - 1], r.events[i - 1]);
    }
  }

  lemma {:induction false} RunCore(c: Codec, r: Run, i: nat)
    requires IsRun(c, r) && Careful(r) && i < |r.states|
    ensures CoreInv(c, r.states[i])
  {
    if i == 0 {
      StartInv(c);
    } else {
      RunCore(c, r, i - 1);
      assert StepAt(c, r, i - 1) && Harmless(r.states[i - 1], r.events[i - 1]);
      StepKeepsCore(c, r.states[i - 1], r.events[i - 1]);
    }
  }

  lemma SafeIsCareful(c: Codec, r: Run)
    requires IsRun(c, r) && Safe(r)
    ensures Careful(r)
  {
    forall i | 0 <= i < |r.events|
      ensures Harmless(r.states[i], r.events[i])
    {
      RunInv(c, r, i);
      assert UpsertSafe(r.states[i], r.events[i]);
    }
  }

  // ----- Transfers and their triggers

  /** In every reachable state each transfer record names a trigger that is in the store and marked. */
  lemma TransfersHaveMarkedTriggers(c: Codec, r: Run, i: nat, id: PaymentId)
    requires IsRun(c, r) && Careful(r) && i < |r.states|
    requires r.states[i].store.HasTransfer(id)
    ensures var leg := r.states[i].store.mem[id].ty;
      && r.states[i].store.HasTrigger(leg.trigger)
      && (id == Custodial(leg.custodialPayment) || id == Lightning(leg.lightningPayment))
  {
    RunCore(c, r, i);
    assert LegPlaced(r.states[i].store, id) && LegSound(r.states[i].store, id);
  }

  /** A trigger has at most one custodial and at most one lightning leg, written by the same rebalance. */
  lemma OneLegOfEachKind(c: Codec, r: Run, i: nat, a: PaymentId, b: PaymentId)
    requires IsRun(c, r) && Careful(r) && i < |r.states|
    requires r.states[i].store.HasTransfer(a) && r.states[i].store.HasTransfer(b)
    requires r.states[i].store.mem[a].ty.trigger == r.states[i].store.mem[b].ty.trigger
    ensures r.states[i].store.mem[a] == r.states[i].store.mem[b]
    ensures a.Custodial? == b.Custodial? ==> a == b
  {
    RunCore(c, r, i);
    assert LegPlaced(r.states[i].store, a) && LegPlaced(r.states[i].store, b);
  }

  /** Unless its rebalance is writing the legs, or a restart cut that off, a marked payment has both. */
  lemma MarkedPaymentsComplete(c: Codec, r: Run, i: nat, id: PaymentId)
    requires IsRun(c, r) && i < |r.states|
    requires r.states[i].store.HasTrigger(id) && id !in r.states[i].orphans && !BeingRecorded(r.states[i], id)
    ensures BothLegs(r.states[i].store, id)
  {
    RunBase(c, r, i);
  }

  /** A restart at any point finds the store exactly as it was in memory. */
  lemma RestartsLoseNothing(c: Codec, r: Run, i: nat)
    requires IsRun(c, r) && i < |r.events| && r.events[i].Restart?
    ensures r.states[i + 1].store == r.states[i].store
    ensures var disk := r.states[i].store.disk;
      forall key :: key in r.events[i].keys ==> key in disk && c.readKey(key).Some? && c.decode(disk[key]).Some?
  {
    RunBase(c, r, i);
    assert StepAt(c, r, i);
    ReloadExact(c, r.events[i].keys, r.states[i].store);
    LoadedExactly(c, r.events[i].keys, r.states[i].store.disk);
    RestartBase(c, r.states[i], r.events[i]);
  }

  // ----- Records only move one way

  /** A payment may become marked; marked payments and transfers stay what they are. */
  ghost predicate OneWay(a: StoreState, b: StoreState) {
    && (forall id :: a.HasPayment(id) ==> b.HasPayment(id) || b.HasTrigger(id))
    && (forall id :: a.HasTrigger(id) ==> b.HasTrigger(id))
    && (forall id :: a.HasTransfer(id) ==> b.HasTransfer(id) && b.mem[id] == a.mem[id])
  }

  lemma SetOneWay(c: Codec, s: StoreState, id: PaymentId, metadata: TxMetadata)
    requires id in s.mem ==> s.HasPayment(id) && metadata.ty.Payment?
    ensures OneWay(s, s.Set(c, id, metadata))
  {
  }

  lemma RecordOneWay(c: Codec, s: State, e: Event)
    requires Provenance(s) && PollSound(s) && Enabled(s, e) && UpsertSafe(s, e)
    requires e.PollInsert? || e.CustodialRecorded? || e.LightningRecorded?
    ensures OneWay(s.store, Step(c, s, e).store)
  {
    match e
    case PollInsert(now) =>
      SetOneWay(c, s.store, Custodial(s.poll.entry.id), TxMetadata(now, Payment(IncomingLightning)));
    case CustodialRecorded(id, ty, now) => SetOneWay(c, s.store, Custodial(id), TxMetadata(now, Payment(ty)));
    case LightningRecorded(id, ty, now) =>
      assert id in s.sent;
      SetOneWay(c, s.store, Lightning(id), TxMetadata(now, Payment(ty)));
  }

  lemma LegOneWay(c: Codec, s: State, e: Event)
    requires Enabled(s, e) && (e.CustodialLegRecorded? || e.LightningLegRecorded?)
    requires FlightFresh(s, s.rebalances[e.task])
    ensures OneWay(s.store, Step(c, s, e).store)
  {
    var r := s.rebalances[e.task];
    var key := if e.CustodialLegRecorded? then Custodial(r.stage.custodialId) else Lightning(r.stage.lightningId);
    SetOneWay(c, s.store, key, r.Leg());
  }

  /** The other steps leave the store alone, but for marking. */
  lemma QuietStore(c: Codec, s: State, e: Event)
    requires Enabled(s, e) && !e.PollInsert? && !e.CustodialRecorded? && !e.LightningRecorded?
    requires !e.CustodialLegRecorded? && !e.LightningLegRecorded? && !e.Restart?
    ensures Step(c, s, e).store == s.store ||
            (e.TriggerMarked? && Step(c, s, e).store == s.store.Mark(c, s.rebalances[e.task].trigger))
  {
  }

  lemma MarkOneWay(c: Codec, s: StoreState, id: PaymentId)
    ensures OneWay(s, s.Mark(c, id))
  {
  }

  lemma StepOneWay(c: Codec, s: State, e: Event)
    requires c.Lawful() && s.store.Mirrored(c) && Provenance(s) && PollSound(s) && InFlight(s)
    requires Enabled(s, e) && UpsertSafe(s, e)
    ensures OneWay(s.store, Step(c, s, e).store)
  {
    if e.PollInsert? || e.CustodialRecorded? || e.LightningRecorded? {
      RecordOneWay(c, s, e);
    } else if e.CustodialLegRecorded? || e.LightningLegRecorded? {
      assert FlightFresh(s, s.rebalances[e.task]);
      LegOneWay(c, s, e);
    } else if e.Restart? {
      ReloadExact(c, e.keys, s.store);
      assert Step(c, s, e).store == s.store;
    } else {
      QuietStore(c, s, e);
      if e.TriggerMarked? {
        MarkOneWay(c, s.store, s.rebalances[e.task].trigger);
      }
    }
  }

  /** In the store, as a plain payment or marked. */
  ghost predicate Known(store: StoreState, id: PaymentId) {
    store.HasPayment(id) || store.HasTrigger(id)
  }

  /** What every run keeps: only the mark of a lightning payment can be lost, and that by recording it anew. */
  ghost predicate Forward(a: StoreState, b: StoreState) {
    && (forall id :: Known(a, id) ==> Known(b, id))
    && (forall id :: a.HasTrigger(id) && id.Custodial? ==> b.HasTrigger(id))
    && (forall id :: a.HasTransfer(id) ==> b.HasTransfer(id) && b.mem[id] == a.mem[id])
  }

  lemma StepForward(c: Codec, s: State, e: Event)
    requires BaseInv(c, s) && Enabled(s, e)
    ensures Forward(s.store, Step(c, s, e).store)
  {
    if UpsertSafe(s, e) {
      StepOneWay(c, s, e);
    } else {
      RecordedKeyFree(s, e);
      RecordedPayment(c, s, e);
    }
  }

  lemma RunStepForward(c: Codec, r: Run, i: nat)
    requires IsRun(c, r) && i < |r.events|
    ensures Forward(r.states[i].store, r.states[i + 1].store)
  {
    RunBase(c, r, i);
    assert StepAt(c, r, i);
    StepForward(c, r.states[i], r.events[i]);
  }

  /** Records never go back at all exactly in the safe runs. */
  lemma OneWayExactly(c: Codec, r: Run)
    requires IsRun(c, r)
    ensures (forall i :: 0 <= i < |r.events| ==> OneWay(r.states[i].store, r.states[i + 1].store)) <==> Safe(r)
  {
    if Safe(r) {
      forall i | 0 <= i < |r.events|
        ensures OneWay(r.states[i].store, r.states[i + 1].store)
      {
        RunStepOneWay(c, r, i);
      }
    }
    if forall i :: 0 <= i < |r.events| ==> OneWay(r.states[i].store, r.states[i + 1].store) {
      forall i | 0 <= i < |r.events|
        ensures UpsertSafe(r.states[i], r.events[i])
      {
        assert StepAt(c, r, i) && OneWay(r.states[i].store, r.states[i + 1].store);
      }
    }
  }

  lemma RunStepOneWay(c: Codec, r: Run, i: nat)
    requires IsRun(c, r) && Safe(r) && i < |r.events|
    ensures OneWay(r.states[i].store, r.states[i + 1].store)
  {
    RunInv(c, r, i);
    assert StepAt(c, r, i) && UpsertSafe(r.states[i], r.events[i]);
    StepOneWay(c, r.states[i], r.events[i]);
  }

  /** If each store leads one way to the next, the first leads one way to the last. */
  lemma {:induction false} ChainOneWay(stores: seq<StoreState>)
    requires stores != []
    requires forall i :: 0 <= i < |stores| - 1 ==> OneWay(stores[i], stores[i + 1])
    ensures OneWay(stores[0], stores[|stores| - 1])
  {
    var n := |stores| - 1;
    if n == 0 {
    } else {
      ChainOneWay(stores[..n]);
    }
  }

  lemma RunOneWay(c: Codec, r: Run, i: nat, j: nat)
    requires IsRun(c, r) && Safe(r) && i <= j < |r.states|
    ensures OneWay(r.states[i].store, r.states[j].store)
  {
    var stores := seq(j - i + 1, k requires 0 <= k <= j - i => r.states[i + k].store);
    forall k | 0 <= k < j - i
      ensures OneWay(stores[k], stores[k + 1])
    {
      RunStepOneWay(c, r, i + k);
    }
    ChainOneWay(stores);
  }

  /** The event marks `trigger` successfully. */
  ghost predicate Marks(s: State, e: Event, trigger: PaymentId) {
    e.TriggerMarked? && s.At(e.task) && s.rebalances[e.task].trigger == trigger && s.store.HasPayment(trigger)
  }

  /** Over a whole run, restarts included, no payment is marked twice. */
  lemma MarkedAtMostOnce(c: Codec, r: Run, i: nat, j: nat, trigger: PaymentId)
    requires IsRun(c, r) && Safe(r) && i <= j < |r.events|
    requires Marks(r.states[i], r.events[i], trigger) && Marks(r.states[j], r.events[j], trigger)
    ensures i == j
  {
    if i < j {
      assert StepAt(c, r, i);
      assert r.states[i + 1].store.HasTrigger(trigger);
      RunOneWay(c, r, i + 1, j);
    }
  }

  /** `insert` never finds an old entry: the debug assertion in the store holds in every run. */
  lemma InsertsAreNew(c: Codec, r: Run, i: nat)
    requires IsRun(c, r) && i < |r.events|
    ensures StepAt(c, r, i)
    ensures var s, e := r.states[i], r.events[i];
      && (e.PollInsert? ==> Custodial(s.poll.entry.id) !in s.store.mem)
      && (e.CustodialRecorded? ==> Custodial(e.custodialId) !in s.store.mem)
      && (e.CustodialLegRecorded? ==> Custodial(s.rebalances[e.task].stage.custodialId) !in s.store.mem)
      && (e.LightningLegRecorded? ==> Lightning(s.rebalances[e.task].stage.lightningId) !in s.store.mem)
  {
    RunBase(c, r, i);
    assert StepAt(c, r, i);
    var s, e := r.states[i], r.events[i];
    if e.CustodialLegRecorded? || e.LightningLegRecorded? {
      assert FlightFresh(s, s.rebalances[e.task]);
    }
  }

  // ----- The expect on marking

  /** Every rebalance that has yet to mark finds its trigger still a plain payment. */
  ghost predicate TriggersWaiting(s: State) {
    && (forall task: nat :: s.At(task) ==> !s.rebalances[task].stage.Panicked?)
    && (forall task: nat :: s.At(task) && s.rebalances[task].stage.BeforeMark() ==>
          s.store.HasPayment(s.rebalances[task].trigger))
    && (forall a: nat, b: nat | s.At(a) && s.At(b) && a != b &&
                                s.rebalances[a].stage.BeforeMark() && s.rebalances[b].stage.BeforeMark() ::
          s.rebalances[a].trigger != s.rebalances[b].trigger)
    && (forall task: nat | s.At(task) && s.rebalances[task].stage.BeforeMark() &&
                           s.rebalances[task].trigger.Custodial? ::
          s.poll == Rebalancing(task))
  }

  ghost predicate CandidatesWaiting(s: State, newTxn: seq<Candidate>, latest: Option<Latest>) {
    && (latest.Some? ==> s.store.HasPayment(Custodial(latest.value.id)))
    && (forall candidate :: candidate in newTxn ==> s.store.HasPayment(Custodial(candidate.id)))
  }

  ghost predicate PollWaiting(s: State) {
    match s.poll
    case Scanning(_, newTxn, latest) => CandidatesWaiting(s, newTxn, latest)
    case Inserting(_, _, newTxn, latest) => CandidatesWaiting(s, newTxn, latest)
    case _ => true
  }

  ghost predicate PendingNew(s: State) {
    forall id :: id in s.pendingLightning ==> s.pendingLightning[id] == 1 && Lightning(id) !in s.store.mem
  }

  ghost predicate Expectant(s: State) {
    TriggersWaiting(s) && PollWaiting(s) && PendingNew(s)
  }

  lemma NoRetryIsSafe(c: Codec, s: State, e: Event)
    requires Expectant(s) && Enabled(s, e)
    ensures UpsertSafe(s, e)
  {
  }

  /** Tasks only move forward, no plain payment that one of them waits for is lost. */
  lemma TriggersKept(s: State, t: State)
    requires TriggersWaiting(s)
    requires forall task: nat :: t.At(task) ==>
               s.At(task) && t.rebalances[task].trigger == s.rebalances[task].trigger &&
               !t.rebalances[task].stage.Panicked? &&
               (t.rebalances[task].stage.BeforeMark() ==>
                  s.rebalances[task].stage.BeforeMark() && t.store.HasPayment(t.rebalances[task].trigger))
    requires t.poll != s.poll ==>
               forall task: nat :: t.At(task) && s.poll == Rebalancing(task) ==> !t.rebalances[task].stage.BeforeMark()
    ensures TriggersWaiting(t)
  {
  }

  /** A new task may start if its trigger is a plain payment that no other task waits for. */
  lemma TriggerAdded(s: State, t: State, trigger: PaymentId)
    requires TriggersWaiting(s) && t.rebalances == s.rebalances + [Rebalance(trigger, AwaitingLock)]
    requires forall id :: s.store.HasPayment(id) ==> t.store.HasPayment(id)
    requires t.store.HasPayment(trigger)
    requires forall task: nat :: s.At(task) && s.rebalances[task].stage.BeforeMark() ==>
               s.rebalances[task].trigger != trigger
    requires if trigger.Custodial? then t.poll == Rebalancing(|s.rebalances|) && !s.poll.Rebalancing?
             else t.poll == s.poll
    ensures TriggersWaiting(t)
  {
    forall task: nat | t.At(task)
      ensures t.rebalances[task] == if s.At(task) then s.rebalances[task] else Rebalance(trigger, AwaitingLock)
    {
    }
  }

  /** The candidates of the poll loop stay plain payments. */
  lemma CandidatesKept(s: State, t: State)
    requires PollWaiting(s) && t.poll == s.poll
    requires forall id: CustodialPaymentId :: s.store.HasPayment(Custodial(id)) ==> t.store.HasPayment(Custodial(id))
    ensures PollWaiting(t)
  {
  }

  lemma PollReadExpectant(c: Codec, s: State, e: Event)
    requires Expectant(s) && Enabled(s, e) && (e.PollList? || e.PollRead? || e.PollReturn?)
    ensures Expectant(Step(c, s, e))
  {
    TriggersKept(s, Step(c, s, e));
  }

  lemma PollInsertExpectant(c: Codec, s: State, e: Event)
    requires Expectant(s) && Enabled(s, e) && e.PollInsert?
    ensures Expectant(Step(c, s, e))
  {
    TriggersKept(s, Step(c, s, e));
  }

  lemma PollDecideExpectant(c: Codec, s: State, e: Event)
    requires Expectant(s) && Enabled(s, e) && e.PollDecide?
    ensures Expectant(Step(c, s, e))
  {
    var t := Step(c, s, e);
    if t.poll.Rebalancing? {
      TriggerAdded(s, t, Custodial(Victim(s.poll.newTxn, s.poll.latest).value));
    } else {
      TriggersKept(s, t);
    }
  }

  lemma PaidExpectant(c: Codec, s: State, e: Event)
    requires Provenance(s) && Expectant(s) && Enabled(s, e) && FreshIds(s, e) && NeverReissued(s, e)
    requires e.CustodialPaid? || e.LightningPaid?
    ensures Expectant(Step(c, s, e))
  {
    TriggersKept(s, Step(c, s, e));
    CandidatesKept(s, Step(c, s, e));
  }

  lemma CustodialRecordedExpectant(c: Codec, s: State, e: Event)
    requires Expectant(s) && Enabled(s, e) && e.CustodialRecorded?
    ensures Expectant(Step(c, s, e))
  {
    TriggersKept(s, Step(c, s, e));
    CandidatesKept(s, Step(c, s, e));
  }

  lemma LightningRecordedExpectant(c: Codec, s: State, e: Event)
    requires Expectant(s) && Enabled(s, e) && e.LightningRecorded?
    ensures Expectant(Step(c, s, e))
  {
    var t := Step(c, s, e);
    TriggerAdded(s, t, Lightning(e.lightningId));
    CandidatesKept(s, t);
    assert PendingNew(t) by {
      assert s.pendingLightning[e.lightningId] == 1;
    }
  }

  lemma TaskExpectant(c: Codec, s: State, e: Event)
    requires Expectant(s) && Enabled(s, e)
    requires e.LockAcquired? || e.Abandoned? || e.RebalancePaid? || e.ReceiptSeen?
    ensures Expectant(Step(c, s, e))
  {
    TriggersKept(s, Step(c, s, e));
    CandidatesKept(s, Step(c, s, e));
  }

  /** Marking succeeds, and takes the plain payment from nobody else. */
  lemma MarkExpectant(c: Codec, s: State, e: Event)
    requires Expectant(s) && Enabled(s, e) && e.TriggerMarked?
    ensures Expectant(Step(c, s, e))
  {
    var t := Step(c, s, e);
    var trigger := s.rebalances[e.task].trigger;
    assert s.store.HasPayment(trigger);
    forall task: nat | t.At(task) && t.rebalances[task].stage.BeforeMark()
      ensures t.store.HasPayment(t.rebalances[task].trigger)
    {
      assert s.rebalances[task].trigger != trigger;
    }
    TriggersKept(s, t);
  }

  lemma LegExpectant(c: Codec, s: State, e: Event)
    requires Provenance(s) && Expectant(s) && Enabled(s, e) && (e.CustodialLegRecorded? || e.LightningLegRecorded?)
    requires FlightFresh(s, s.rebalances[e.task])
    ensures Expectant(Step(c, s, e))
  {
    TriggersKept(s, Step(c, s, e));
    CandidatesKept(s, Step(c, s, e));
  }

  lemma StepExpectant(c: Codec, s: State, e: Event)
    requires Inv(c, s) && Expectant(s) && Enabled(s, e) && FreshIds(s, e) && NeverReissued(s, e)
    ensures Expectant(Step(c, s, e))
  {
    match e
    case PollInsert(_) => PollInsertExpectant(c, s, e);
    case PollDecide(_) => PollDecideExpectant(c, s, e);
    case CustodialPaid(_) => PaidExpectant(c, s, e);
    case LightningPaid(_) => PaidExpectant(c, s, e);
    case CustodialRecorded(_, _, _) => CustodialRecordedExpectant(c, s, e);
    case LightningRecorded(_, _, _) => LightningRecordedExpectant(c, s, e);
    case LockAcquired(_) => TaskExpectant(c, s, e);
    case Abandoned(_) => TaskExpectant(c, s, e);
    case RebalancePaid(_, _) => TaskExpectant(c, s, e);
    case ReceiptSeen(_, _) => TaskExpectant(c, s, e);
    case TriggerMarked(_, _) => MarkExpectant(c, s, e);
    case CustodialLegRecorded(task) =>
      assert FlightFresh(s, s.rebalances[task]);
      LegExpectant(c, s, e);
    case LightningLegRecorded(task) =>
      assert FlightFresh(s, s.rebalances[task]);
      LegExpectant(c, s, e);
    case Restart(_) =>
    case _ => PollReadExpectant(c, s, e);
  }

  lemma {:induction false} RunExpectant(c: Codec, r: Run, i: nat)
    requires IsRun(c, r) && NoRetries(r) && i < |r.states|
    ensures Inv(c, r.states[i]) && Expectant(r.states[i])
  {
    if i == 0 {
      StartInv(c);
    } else {
      RunExpectant(c, r, i - 1);
      assert StepAt(c, r, i - 1) && NeverReissued(r.states[i - 1], r.events[i - 1]);
      NoRetryIsSafe(c, r.states[i - 1], r.events[i - 1]);
      StepKeepsInv(c, r.states[i - 1], r.events[i - 1]);
      StepExpectant(c, r.states[i - 1], r.events[i - 1]);
    }
  }

  /** If no invoice is paid twice, marking always succeeds: its `expect` never fires, in any run. */
  lemma MarkingNeverPanics(c: Codec, r: Run, i: nat)
    requires IsRun(c, r) && NoRetries(r) && i < |r.events|
    ensures StepAt(c, r, i) && UpsertSafe(r.states[i], r.events[i])
    ensures r.events[i].TriggerMarked? ==>
            Marks(r.states[i], r.events[i], r.states[i].rebalances[r.events[i].task].trigger)
    ensures forall task: nat :: r.states[i].At(task) ==> !r.states[i].rebalances[task].stage.Panicked?
  {
    RunExpectant(c, r, i);
    assert StepAt(c, r, i);
    NoRetryIsSafe(c, r.states[i], r.events[i]);
  }

  /** So such a run is safe in the weaker sense too. */
  lemma NoRetriesSafe(c: Codec, r: Run)
    requires IsRun(c, r) && NoRetries(r)
    ensures Safe(r)
  {
    forall i | 0 <= i < |r.events|
      ensures UpsertSafe(r.states[i], r.events[i])
    {
      MarkingNeverPanics(c, r, i);
    }
  }
}
