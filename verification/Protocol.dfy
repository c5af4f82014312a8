/**
 * The tasks that share the metadata store, as a transition system: the poll loop, any number of
 * payments, and the rebalances that both of them start. One step is one lock-protected operation on
 * the store, or one thing that a service or the runtime does in between.
 */
module Protocol {
  import opened Wrappers
  import opened Amounts
  import opened Metadata
  import opened Store

  // ----- States

  /** How far one `do_custodial_rebalance` has come. */
  datatype Stage =
    | AwaitingLock
    | Locked
    | Paid(custodialId: CustodialPaymentId)
    | Received(custodialId: CustodialPaymentId, lightningId: Bytes32)
    | Marked(custodialId: CustodialPaymentId, lightningId: Bytes32, time: nat)
    | HalfRecorded(custodialId: CustodialPaymentId, lightningId: Bytes32, time: nat)
    | Finished
    | Panicked
  {
    predicate BeforeMark() {
      AwaitingLock? || Locked? || Paid? || Received?
    }

    predicate Recording() {
      Marked? || HalfRecorded?
    }

    /** Holds `balance_mutex`. */
    predicate HoldsLock() {
      Locked? || Paid? || Received? || Recording()
    }
  }

  datatype Rebalance = Rebalance(trigger: PaymentId, stage: Stage) {
    /** The metadata written under both legs. */
    function Leg(): TxMetadata
      requires stage.Recording()
    {
      TxMetadata(stage.time, TransferToNonCustodial(stage.custodialId, stage.lightningId, trigger))
    }
  }

  datatype Candidate = Candidate(amount: Amount, id: CustodialPaymentId)
  datatype Latest = Latest(time: nat, id: CustodialPaymentId)

  datatype Poll =
    | Sleeping
    | Scanning(left: seq<CustodialPayment>, newTxn: seq<Candidate>, latest: Option<Latest>)
    | Inserting(entry: CustodialPayment, left: seq<CustodialPayment>, newTxn: seq<Candidate>, latest: Option<Latest>)
    | Rebalancing(task: nat)
    | Dead

  datatype State = State(
    store: StoreState,
    rebalances: seq<Rebalance>,
    lock: Option<nat>,
    poll: Poll,
    // payments that a service has accepted and whose metadata is not yet written
    pendingCustodial: set<CustodialPaymentId>,
    pendingLightning: multiset<Bytes32>,
    // ids that the services have used so far
    inbound: set<CustodialPaymentId>,
    outbound: set<CustodialPaymentId>,
    sent: set<Bytes32>,
    received: set<Bytes32>,
    // what has happened so far: successful marks, and triggers whose bookkeeping a restart cut short
    marks: seq<PaymentId>,
    orphans: set<PaymentId>)
  {
    predicate At(task: nat) {
      task < |rebalances|
    }

    function WithStage(task: nat, stage: Stage): State
      requires At(task)
    {
      this.(rebalances := rebalances[task := rebalances[task].(stage := stage)])
    }
  }

  const START := State(StoreState(map[], map[]), [], None, Sleeping, {}, multiset{}, {}, {}, {}, {}, [], {})

  // ----- Steps

  datatype Event =
    | PollList(entries: seq<CustodialPayment>)
    | PollRead
    | PollInsert(now: nat)
    | PollDecide(transfer: bool)
    | PollReturn
    | CustodialPaid(custodialId: CustodialPaymentId)
    | CustodialRecorded(custodialId: CustodialPaymentId, ty: PaymentType, now: nat)
    | LightningPaid(lightningId: Bytes32)
    | LightningRecorded(lightningId: Bytes32, ty: PaymentType, now: nat)
    | LockAcquired(task: nat)
    | Abandoned(task: nat)
    | RebalancePaid(task: nat, custodialId: CustodialPaymentId)
    | ReceiptSeen(task: nat, lightningId: Bytes32)
    | TriggerMarked(task: nat, now: nat)
    | CustodialLegRecorded(task: nat)
    | LightningLegRecorded(task: nat)
    | Restart(keys: seq<string>)

  ghost predicate Enabled(s: State, e: Event) {
    match e
    case PollList(_) => s.poll.Sleeping?
    case PollRead => s.poll.Scanning? && s.poll.left != []
    case PollInsert(_) => s.poll.Inserting?
    case PollDecide(_) => s.poll.Scanning? && s.poll.left == []
    case PollReturn =>
      s.poll.Rebalancing? && s.At(s.poll.task) &&
      (s.rebalances[s.poll.task].stage.Finished? || s.rebalances[s.poll.task].stage.Panicked?)
    case CustodialPaid(_) => true
    case CustodialRecorded(id, _, _) => id in s.pendingCustodial
    case LightningPaid(_) => true
    case LightningRecorded(id, _, _) => id in s.pendingLightning
    case LockAcquired(task) => s.At(task) && s.rebalances[task].stage.AwaitingLock? && s.lock == None
    case Abandoned(task) => s.At(task) && (s.rebalances[task].stage.Locked? || s.rebalances[task].stage.Paid?)
    case RebalancePaid(task, _) => s.At(task) && s.rebalances[task].stage.Locked?
    case ReceiptSeen(task, _) => s.At(task) && s.rebalances[task].stage.Paid?
    case TriggerMarked(task, _) => s.At(task) && s.rebalances[task].stage.Received?
    case CustodialLegRecorded(task) => s.At(task) && s.rebalances[task].stage.Marked?
    case LightningLegRecorded(task) => s.At(task) && s.rebalances[task].stage.HalfRecorded?
    case Restart(keys) => Lists(keys, s.store.disk)
  }

  predicate Before(a: Candidate, b: Candidate) {
    a.amount.msats < b.amount.msats || (a.amount.msats == b.amount.msats && a.id <= b.id)
  }

  /** The head of the sorted list: the smallest new payment, ties broken by id. */
  function Smallest(candidates: seq<Candidate>): (least: Candidate)
    requires candidates != []
    ensures least in candidates
    ensures forall c :: c in candidates ==>
              least.amount.msats <= c.amount.msats && (least.amount.msats == c.amount.msats ==> least.id <= c.id)
  {
    if |candidates| == 1 then candidates[0]
    else
      var rest := Smallest(candidates[1..]);
      assert candidates == [candidates[0]] + candidates[1..];
      if Before(candidates[0], rest) then candidates[0] else rest
  }

  /** The payment that the poll loop charges a rebalance to; `None` where its `expect` panics. */
  function Victim(newTxn: seq<Candidate>, latest: Option<Latest>): Option<CustodialPaymentId> {
    if newTxn != [] then Some(Smallest(newTxn).id)
    else
      match latest
      case Some(l) => Some(l.id)
      case None => None
  }

  function InboundIds(entries: seq<CustodialPayment>): set<CustodialPaymentId> {
    set e | e in entries && !e.outbound :: e.id
  }

  /** The loop body of the poll up to the point where it may insert. */
  function AfterRead(s: State): Poll
    requires s.poll.Scanning? && s.poll.left != []
  {
    var entry := s.poll.left[0];
    var rest := s.poll.left[1..];
    var id := Custodial(entry.id);
    if entry.outbound then Scanning(rest, s.poll.newTxn, s.poll.latest)
    else if id !in s.store.mem then Inserting(entry, rest, s.poll.newTxn, s.poll.latest)
    else
      var metadata := s.store.mem[id];
      if metadata.ty.Payment? && (s.poll.latest.None? || s.poll.latest.value.time < metadata.time) then
        Scanning(rest, s.poll.newTxn, Some(Latest(metadata.time, entry.id)))
      else Scanning(rest, s.poll.newTxn, s.poll.latest)
  }

  function Step(c: Codec, s: State, e: Event): State
    requires Enabled(s, e)
  {
    match e
    case PollList(entries) =>
      s.(poll := Scanning(entries, [], None), inbound := s.inbound + InboundIds(entries))
    case PollRead => s.(poll := AfterRead(s))
    case PollInsert(now) =>
      var entry := s.poll.entry;
      s.(store := s.store.Set(c, Custodial(entry.id), TxMetadata(now, Payment(IncomingLightning))),
         poll := Scanning(s.poll.left, s.poll.newTxn + [Candidate(entry.amount, entry.id)], s.poll.latest))
    case PollDecide(transfer) =>
      if !transfer then s.(poll := Sleeping)
      else
        (match Victim(s.poll.newTxn, s.poll.latest)
         case None => s.(poll := Dead)
         case Some(id) =>
           s.(rebalances := s.rebalances + [Rebalance(Custodial(id), AwaitingLock)],
              poll := Rebalancing(|s.rebalances|)))
    case PollReturn => s.(poll := if s.rebalances[s.poll.task].stage.Finished? then Sleeping else Dead)
    case CustodialPaid(id) => s.(pendingCustodial := s.pendingCustodial + {id}, outbound := s.outbound + {id})
    case CustodialRecorded(id, ty, now) =>
      s.(store := s.store.Set(c, Custodial(id), TxMetadata(now, Payment(ty))),
         pendingCustodial := s.pendingCustodial - {id})
    case LightningPaid(id) => s.(pendingLightning := s.pendingLightning + multiset{id}, sent := s.sent + {id})
    case LightningRecorded(id, ty, now) =>
      s.(store := s.store.Set(c, Lightning(id), TxMetadata(now, Payment(ty))),
         pendingLightning := s.pendingLightning - multiset{id},
         rebalances := s.rebalances + [Rebalance(Lightning(id), AwaitingLock)])
    case LockAcquired(task) => s.WithStage(task, Locked).(lock := Some(task))
    case Abandoned(task) => s.WithStage(task, Finished).(lock := None)
    case RebalancePaid(task, id) => s.WithStage(task, Paid(id)).(outbound := s.outbound + {id})
    case ReceiptSeen(task, id) =>
      s.WithStage(task, Received(s.rebalances[task].stage.custodialId, id)).(received := s.received + {id})
    case TriggerMarked(task, now) =>
      var trigger := s.rebalances[task].trigger;
      var stage := s.rebalances[task].stage;
      if s.store.HasPayment(trigger) then
        s.WithStage(task, Marked(stage.custodialId, stage.lightningId, now))
         .(store := s.store.Mark(c, trigger), marks := s.marks + [trigger])
      else s.WithStage(task, Panicked).(lock := None)
    case CustodialLegRecorded(task) =>
      var stage := s.rebalances[task].stage;
      s.WithStage(task, HalfRecorded(stage.custodialId, stage.lightningId, stage.time))
       .(store := s.store.Set(c, Custodial(stage.custodialId), s.rebalances[task].Leg()))
    case LightningLegRecorded(task) =>
      var stage := s.rebalances[task].stage;
      s.WithStage(task, Finished)
       .(store := s.store.Set(c, Lightning(stage.lightningId), s.rebalances[task].Leg()), lock := None)
    case Restart(keys) =>
      var cut := set task | 0 <= task < |s.rebalances| && s.rebalances[task].stage.Recording() ::
                   s.rebalances[task].trigger;
      var loaded := Loaded(c, keys, s.store.disk);
      s.(store := StoreState(if loaded.Some? then loaded.value else map[], s.store.disk),
         rebalances := [], lock := None, poll := Sleeping, pendingCustodial := {}, pendingLightning := multiset{},
         orphans := s.orphans + cut)
  }

  // ----- What the services promise

  /**
   * Payment ids are fresh where the services create them: each payment from custody has a new id, each payment
   * received over lightning too, and no id is used for both directions.
   */
  ghost predicate FreshIds(s: State, e: Event) {
    match e
    case PollList(entries) => InboundIds(entries) !! s.outbound
    case CustodialPaid(id) => id !in s.outbound && id !in s.inbound
    case RebalancePaid(_, id) => id !in s.outbound && id !in s.inbound
    case LightningPaid(id) => id !in s.received
    case ReceiptSeen(_, id) => id !in s.received && id !in s.sent
    case _ => true
  }

  /** A payment that has triggered a rebalance is not recorded anew (by a retry of the same invoice). */
  ghost predicate UpsertSafe(s: State, e: Event) {
    e.LightningRecorded? ==> !s.store.HasTrigger(Lightning(e.lightningId))
  }

  /** The weaker promise: such a payment is not recorded anew while a transfer names it or is about to. */
  ghost predicate Harmless(s: State, e: Event) {
    e.LightningRecorded? ==> !InUse(s, Lightning(e.lightningId))
  }

  /** The lightning wallet never uses an outgoing payment id twice: no invoice is retried. */
  ghost predicate NeverReissued(s: State, e: Event) {
    e.LightningPaid? ==> e.lightningId !in s.sent
  }

  // ----- Invariants

  /** Exactly the task that the mutex names is in the critical section. */
  ghost predicate LockExact(s: State) {
    && (s.lock.Some? ==> s.At(s.lock.value))
    && (forall task: nat :: s.At(task) ==> (s.rebalances[task].stage.HoldsLock() <==> s.lock == Some(task)))
  }

  /** Which service each key came from. */
  ghost predicate Provenance(s: State) {
    && s.inbound !! s.outbound
    && s.sent !! s.received
    && (forall id: CustodialPaymentId :: Custodial(id) in s.store.mem ==> id in s.inbound || id in s.outbound)
    && (forall id: Bytes32 :: Lightning(id) in s.store.mem ==> id in s.sent || id in s.received)
    && (forall id: Bytes32 :: s.store.HasTransfer(Lightning(id)) ==> id in s.received)
    && (forall id :: id in s.pendingCustodial ==> id in s.outbound && Custodial(id) !in s.store.mem)
    && (forall id :: id in s.pendingLightning ==> id in s.sent)
  }

  ghost predicate PollSound(s: State) {
    && (s.poll.Scanning? || s.poll.Inserting? ==> InboundIds(s.poll.left) <= s.inbound)
    && (s.poll.Inserting? ==> s.poll.entry.id in s.inbound && Custodial(s.poll.entry.id) !in s.store.mem)
  }

  /** The ids of a rebalance are its own until their legs are recorded. */
  ghost predicate FlightFresh(s: State, r: Rebalance) {
    && (r.stage.Paid? || r.stage.Received? || r.stage.Marked? ==>
          r.stage.custodialId in s.outbound && r.stage.custodialId !in s.pendingCustodial &&
          Custodial(r.stage.custodialId) !in s.store.mem)
    && (r.stage.Received? || r.stage.Recording() ==>
          r.stage.lightningId in s.received && Lightning(r.stage.lightningId) !in s.store.mem)
  }

  ghost predicate InFlight(s: State) {
    forall task: nat :: s.At(task) ==> FlightFresh(s, s.rebalances[task])
  }

  /** A transfer record lies under one of its own two ids. */
  ghost predicate LegPlaced(store: StoreState, id: PaymentId)
    requires store.HasTransfer(id)
  {
    id == Custodial(store.mem[id].ty.custodialPayment) || id == Lightning(store.mem[id].ty.lightningPayment)
  }

  ghost predicate LegsPlaced(store: StoreState) {
    forall id :: store.HasTransfer(id) ==> LegPlaced(store, id)
  }

  /** The trigger of a transfer is in the store, marked. */
  ghost predicate LegSound(store: StoreState, id: PaymentId)
    requires store.HasTransfer(id)
  {
    store.HasTrigger(store.mem[id].ty.trigger)
  }

  ghost predicate LegsSound(store: StoreState) {
    forall id :: store.HasTransfer(id) ==> LegSound(store, id)
  }

  /** Records with the same trigger are the two legs of one rebalance. */
  ghost predicate OneRebalancePerTrigger(store: StoreState) {
    forall a, b | store.HasTransfer(a) && store.HasTransfer(b) && store.mem[a].ty.trigger == store.mem[b].ty.trigger ::
      store.mem[a] == store.mem[b]
  }

  ghost predicate RecordingSound(s: State, r: Rebalance)
    requires r.stage.Recording()
  {
    && s.store.HasTrigger(r.trigger)
    && (forall id :: s.store.HasTransfer(id) && s.store.mem[id].ty.trigger == r.trigger ==>
          r.stage.HalfRecorded? && s.store.mem[id] == r.Leg())
  }

  ghost predicate RecordingsSound(s: State) {
    forall task: nat :: s.At(task) && s.rebalances[task].stage.Recording() ==> RecordingSound(s, s.rebalances[task])
  }

  /** A rebalance that is half done has its custodial leg in the store. */
  ghost predicate HalvesRecorded(s: State) {
    forall task: nat | s.At(task) && s.rebalances[task].stage.HalfRecorded? ::
      var key := Custodial(s.rebalances[task].stage.custodialId);
      key in s.store.mem && s.store.mem[key] == s.rebalances[task].Leg()
  }

  /** The marks so far are the marked payments, each marked once. */
  ghost predicate MarksExact(s: State) {
    && Distinct(s.marks)
    && (forall id :: id in s.marks <==> s.store.HasTrigger(id))
  }

  ghost predicate LegAt(store: StoreState, id: PaymentId, trigger: PaymentId) {
    store.HasTransfer(id) && store.mem[id].ty.trigger == trigger
  }

  ghost predicate BothLegs(store: StoreState, trigger: PaymentId) {
    exists custodial, lightning ::
      LegAt(store, Custodial(custodial), trigger) && LegAt(store, Lightning(lightning), trigger)
  }

  ghost predicate BeingRecorded(s: State, trigger: PaymentId) {
    exists task: nat :: s.At(task) && s.rebalances[task].stage.Recording() && s.rebalances[task].trigger == trigger
  }

  /** A transfer names `trigger`, or a rebalance that has marked it is still writing its legs. */
  ghost predicate InUse(s: State, trigger: PaymentId) {
    (exists leg :: LegAt(s.store, leg, trigger)) || BeingRecorded(s, trigger)
  }

  /** A marked payment has both legs, or is about to, or a restart fell in between. */
  ghost predicate Complete(s: State) {
    forall id :: s.store.HasTrigger(id) ==> BothLegs(s.store, id) || BeingRecorded(s, id) || id in s.orphans
  }

  /** What holds in every run: persistence, the mutex, and where ids come from. */
  ghost predicate BaseInv(c: Codec, s: State) {
    && c.Lawful() && s.store.Mirrored(c)
    && LockExact(s)
    && Provenance(s)
    && PollSound(s)
    && InFlight(s)
  }

  /** What also holds in every run, about transfers: they are in their place, and none is left out. */
  ghost predicate LegInv(s: State) {
    LegsPlaced(s.store) && HalvesRecorded(s) && Complete(s)
  }

  /** What holds as long as payments that triggered a rebalance are only harmlessly recorded anew. */
  ghost predicate LedgerInv(s: State) {
    LegsSound(s.store) && OneRebalancePerTrigger(s.store) && RecordingsSound(s)
  }

  ghost predicate CoreInv(c: Codec, s: State) {
    BaseInv(c, s) && LegInv(s) && LedgerInv(s)
  }

  /** What holds as long as they are not recorded anew at all. */
  ghost predicate Inv(c: Codec, s: State) {
    CoreInv(c, s) && MarksExact(s)
  }
}
