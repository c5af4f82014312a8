/** Every step keeps the invariants; hence safety over whole runs, restarts included. */
module ProtocolSafety {
  import opened Wrappers
  import opened Metadata
  import opened Store
  import opened Protocol

  // ----- Kinds of events

  predicate IsPollStep(e: Event) {
    e.PollList? || e.PollRead? || e.PollDecide? || e.PollReturn?
  }

  predicate IsTaskStep(e: Event) {
    e.LockAcquired? || e.Abandoned? || e.RebalancePaid? || e.ReceiptSeen?
  }

  /** Records a payment. */
  predicate IsRecording(e: Event) {
    e.PollInsert? || e.CustodialRecorded? || e.LightningRecorded?
  }

  predicate IsLegStep(e: Event) {
    e.CustodialLegRecorded? || e.LightningLegRecorded?
  }

  ghost predicate MarkFails(s: State, e: Event)
    requires Enabled(s, e)
  {
    e.TriggerMarked? && !s.store.HasPayment(s.rebalances[e.task].trigger)
  }

  ghost predicate MarkSucceeds(s: State, e: Event)
    requires Enabled(s, e)
  {
    e.TriggerMarked? && s.store.HasPayment(s.rebalances[e.task].trigger)
  }

  // ----- What a step does to the records

  ghost predicate TransfersStay(a: StoreState, b: StoreState) {
    forall id :: a.HasTransfer(id) ==> b.HasTransfer(id) && a.mem[id] == b.mem[id]
  }

  ghost predicate SameTransfers(a: StoreState, b: StoreState) {
    TransfersStay(a, b) && forall id :: b.HasTransfer(id) ==> a.HasTransfer(id)
  }

  /** The same tasks are recording the same legs. */
  ghost predicate SameRecordings(s: State, t: State) {
    && (forall task: nat :: t.At(task) && t.rebalances[task].stage.Recording() ==>
          s.At(task) && s.rebalances[task] == t.rebalances[task])
    && (forall task: nat :: s.At(task) && s.rebalances[task].stage.Recording() ==>
          t.At(task) && s.rebalances[task] == t.rebalances[task])
  }

  /** No record changes, and no task enters or leaves the bookkeeping. */
  ghost predicate Quiet(s: State, t: State) {
    t.store == s.store && SameRecordings(s, t) && t.marks == s.marks && t.orphans == s.orphans
  }

  /** One task moves, neither from nor to the bookkeeping. */
  lemma OtherTaskMoved(s: State, t: State, task: nat, stage: Stage)
    requires s.At(task) && !s.rebalances[task].stage.Recording() && !stage.Recording()
    requires t.rebalances == s.rebalances[task := Rebalance(s.rebalances[task].trigger, stage)]
    ensures SameRecordings(s, t)
  {
  }

  lemma QuietTaskStep(c: Codec, s: State, e: Event)
    requires Enabled(s, e) && (IsTaskStep(e) || MarkFails(s, e))
    ensures Quiet(s, Step(c, s, e))
  {
    var t := Step(c, s, e);
    OtherTaskMoved(s, t, e.task, t.rebalances[e.task].stage);
  }

  lemma QuietPollStep(c: Codec, s: State, e: Event)
    requires Enabled(s, e) && IsPollStep(e)
    ensures Quiet(s, Step(c, s, e))
  {
  }

  lemma QuietStep(c: Codec, s: State, e: Event)
    requires Enabled(s, e)
    requires IsPollStep(e) || IsTaskStep(e) || e.CustodialPaid? || e.LightningPaid? || MarkFails(s, e)
    ensures Quiet(s, Step(c, s, e))
  {
    if IsPollStep(e) {
      QuietPollStep(c, s, e);
    } else if IsTaskStep(e) || MarkFails(s, e) {
      QuietTaskStep(c, s, e);
    }
  }

  /** The key under which a payment is recorded. */
  function RecordedKey(s: State, e: Event): PaymentId
    requires Enabled(s, e) && (e.PollInsert? || e.CustodialRecorded? || e.LightningRecorded?)
  {
    match e
    case PollInsert(_) => Custodial(s.poll.entry.id)
    case CustodialRecorded(id, _, _) => Custodial(id)
    case LightningRecorded(id, _, _) => Lightning(id)
  }

  /** The three steps that record a payment do so under a key that holds no transfer; in custody, under a new one. */
  lemma RecordedKeyFree(s: State, e: Event)
    requires Provenance(s) && PollSound(s) && Enabled(s, e)
    requires e.PollInsert? || e.CustodialRecorded? || e.LightningRecorded?
    ensures !s.store.HasTransfer(RecordedKey(s, e))
    ensures !e.LightningRecorded? ==> RecordedKey(s, e) !in s.store.mem
  {
    assert e.LightningRecorded? ==> e.lightningId in s.sent;
  }

  /** Recording a payment touches no transfer, and takes away at most the mark of its own key. */
  lemma RecordedPayment(c: Codec, s: State, e: Event)
    requires Enabled(s, e) && IsRecording(e) && !s.store.HasTransfer(RecordedKey(s, e))
    ensures var t := Step(c, s, e);
      && t.marks == s.marks && t.orphans == s.orphans
      && SameTransfers(s.store, t.store) && SameRecordings(s, t)
      && (forall other :: t.store.HasTrigger(other) <==> s.store.HasTrigger(other) && other != RecordedKey(s, e))
  {
    var id := RecordedKey(s, e);
  }

  /** The id under which a leg is recorded. */
  function LegKey(s: State, e: Event): PaymentId
    requires Enabled(s, e) && IsLegStep(e)
  {
    var stage := s.rebalances[e.task].stage;
    if e.CustodialLegRecorded? then Custodial(stage.custodialId) else Lightning(stage.lightningId)
  }

  lemma LegRecorded(c: Codec, s: State, e: Event)
    requires Enabled(s, e) && IsLegStep(e) && LegKey(s, e) !in s.store.mem
    ensures var t := Step(c, s, e);
      && t.marks == s.marks && t.orphans == s.orphans
      && t.store.mem == s.store.mem[LegKey(s, e) := s.rebalances[e.task].Leg()]
      && TransfersStay(s.store, t.store)
      && (forall id :: t.store.HasTransfer(id) <==> s.store.HasTransfer(id) || id == LegKey(s, e))
      && (forall id :: t.store.HasTrigger(id) <==> s.store.HasTrigger(id))
  {
  }

  lemma TriggerMarkedNow(c: Codec, s: State, e: Event)
    requires Enabled(s, e) && MarkSucceeds(s, e)
    ensures var t := Step(c, s, e);
      && t.marks == s.marks + [s.rebalances[e.task].trigger] && t.orphans == s.orphans
      && SameTransfers(s.store, t.store)
      && (forall id :: t.store.HasTrigger(id) <==> s.store.HasTrigger(id) || id == s.rebalances[e.task].trigger)
      && t.rebalances[e.task].trigger == s.rebalances[e.task].trigger && t.rebalances[e.task].stage.Marked?
  {
  }

  // ----- The base: persistence, the mutex, and ids

  lemma TasksUntouched(s: State, t: State)
    requires LockExact(s) && InFlight(s)
    requires t.lock == s.lock && |s.rebalances| <= |t.rebalances|
    requires forall task: nat :: s.At(task) ==> t.rebalances[task] == s.rebalances[task]
    requires forall task: nat :: t.At(task) && !s.At(task) ==>
               t.rebalances[task].stage.AwaitingLock? && s.lock != Some(task)
    requires forall task: nat :: s.At(task) && FlightFresh(s, s.rebalances[task]) ==> FlightFresh(t, s.rebalances[task])
    ensures LockExact(t) && InFlight(t)
  {
  }

  lemma PollQuietTasks(c: Codec, s: State, e: Event)
    requires LockExact(s) && InFlight(s) && Enabled(s, e)
    requires e.PollList? || e.PollRead? || e.PollDecide? || e.PollReturn?
    ensures var t := Step(c, s, e);
      && LockExact(t) && InFlight(t)
      && t.store == s.store
  {
    TasksUntouched(s, Step(c, s, e));
  }

  lemma PollQuietIds(c: Codec, s: State, e: Event)
    requires Provenance(s) && PollSound(s) && Enabled(s, e) && FreshIds(s, e)
    requires e.PollList? || e.PollRead? || e.PollDecide? || e.PollReturn?
    ensures var t := Step(c, s, e); Provenance(t) && PollSound(t)
  {
    if e.PollRead? {
      var first, rest := s.poll.left[0], s.poll.left[1..];
      assert s.poll.left == [first] + rest;
      assert InboundIds(rest) <= InboundIds(s.poll.left);
      assert !first.outbound ==> first.id in InboundIds(s.poll.left);
    }
  }

  lemma PaidBase(c: Codec, s: State, e: Event)
    requires BaseInv(c, s) && Enabled(s, e) && FreshIds(s, e) && (e.CustodialPaid? || e.LightningPaid?)
    ensures BaseInv(c, Step(c, s, e))
  {
    TasksUntouched(s, Step(c, s, e));
  }

  lemma RecordedProvenance(c: Codec, s: State, e: Event)
    requires Provenance(s) && PollSound(s) && Enabled(s, e)
    requires e.PollInsert? || e.CustodialRecorded? || e.LightningRecorded?
    ensures Provenance(Step(c, s, e))
  {
    match e
    case PollInsert(_) =>
    case CustodialRecorded(_, _, _) =>
    case LightningRecorded(_, _, _) => assert e.lightningId in s.sent;
  }

  lemma RecordedMirrored(c: Codec, s: State, e: Event)
    requires c.Lawful() && s.store.Mirrored(c) && Enabled(s, e)
    requires e.PollInsert? || e.CustodialRecorded? || e.LightningRecorded?
    ensures Step(c, s, e).store.Mirrored(c)
  {
    var id := RecordedKey(s, e);
    SetMirrored(c, s.store, id, Step(c, s, e).store.mem[id]);
  }

  lemma RecordedTasks(c: Codec, s: State, e: Event)
    requires LockExact(s) && InFlight(s) && Provenance(s) && PollSound(s) && Enabled(s, e)
    requires e.PollInsert? || e.CustodialRecorded? || e.LightningRecorded?
    ensures var t := Step(c, s, e); LockExact(t) && InFlight(t)
  {
    TasksUntouched(s, Step(c, s, e));
  }

  lemma RecordedBase(c: Codec, s: State, e: Event)
    requires BaseInv(c, s) && Enabled(s, e) && IsRecording(e)
    ensures BaseInv(c, Step(c, s, e))
  {
    RecordedProvenance(c, s, e);
    RecordedMirrored(c, s, e);
    RecordedTasks(c, s, e);
  }

  /** Nothing else holds the lock while a task does. */
  lemma OnlyHolder(s: State, task: nat, other: nat)
    requires LockExact(s) && s.At(task) && s.At(other)
    requires s.rebalances[task].stage.HoldsLock() && s.rebalances[other].stage.HoldsLock()
    ensures task == other
  {
  }

  /** One task moves on, and the mutex with it. */
  lemma TaskMoves(s: State, t: State, task: nat)
    requires LockExact(s) && InFlight(s) && s.At(task) && |t.rebalances| == |s.rebalances|
    requires s.lock == None || s.rebalances[task].stage.HoldsLock()
    requires t.lock == if t.rebalances[task].stage.HoldsLock() then Some(task) else None
    requires forall other: nat :: s.At(other) && other != task ==> t.rebalances[other] == s.rebalances[other]
    requires FlightFresh(t, t.rebalances[task])
    requires forall other: nat |
               s.At(other) && !s.rebalances[other].stage.HoldsLock() && FlightFresh(s, s.rebalances[other]) ::
               FlightFresh(t, s.rebalances[other])
    ensures LockExact(t) && InFlight(t)
  {
    forall other: nat | t.At(other) && other != task
      ensures !t.rebalances[other].stage.HoldsLock()
    {
      assert s.rebalances[other].stage.HoldsLock() <==> s.lock == Some(other);
      assert s.rebalances[task].stage.HoldsLock() <==> s.lock == Some(task);
    }
  }

  lemma TaskBase(c: Codec, s: State, e: Event)
    requires BaseInv(c, s) && Enabled(s, e) && FreshIds(s, e) && (IsTaskStep(e) || MarkFails(s, e))
    ensures BaseInv(c, Step(c, s, e))
  {
    assert FlightFresh(s, s.rebalances[e.task]);
    TaskMoves(s, Step(c, s, e), e.task);
  }

  /** The bookkeeping steps, as far as the tasks and the ids are concerned. */
  lemma BookkeepingTasks(c: Codec, s: State, e: Event)
    requires LockExact(s) && InFlight(s) && Enabled(s, e)
    requires e.CustodialLegRecorded? || e.LightningLegRecorded? ||
             (e.TriggerMarked? && s.store.HasPayment(s.rebalances[e.task].trigger))
    ensures var t := Step(c, s, e); LockExact(t) && InFlight(t)
  {
    assert FlightFresh(s, s.rebalances[e.task]);
    TaskMoves(s, Step(c, s, e), e.task);
  }

  lemma MarkIds(c: Codec, s: State, e: Event)
    requires c.Lawful() && s.store.Mirrored(c) && Provenance(s) && PollSound(s)
    requires Enabled(s, e) && e.TriggerMarked? && s.store.HasPayment(s.rebalances[e.task].trigger)
    ensures var t := Step(c, s, e); Provenance(t) && PollSound(t) && t.store.Mirrored(c)
  {
    var trigger := s.rebalances[e.task].trigger;
    SetMirrored(c, s.store, trigger, Step(c, s, e).store.mem[trigger]);
  }

  lemma LegIds(c: Codec, s: State, e: Event)
    requires c.Lawful() && s.store.Mirrored(c) && Provenance(s) && PollSound(s)
    requires Enabled(s, e) && (e.CustodialLegRecorded? || e.LightningLegRecorded?)
    requires FlightFresh(s, s.rebalances[e.task])
    ensures var t := Step(c, s, e); Provenance(t) && PollSound(t) && t.store.Mirrored(c)
  {
    var r := s.rebalances[e.task];
    var key := if e.CustodialLegRecorded? then Custodial(r.stage.custodialId) else Lightning(r.stage.lightningId);
    SetMirrored(c, s.store, key, r.Leg());
  }

  lemma BookkeepingBase(c: Codec, s: State, e: Event)
    requires BaseInv(c, s) && Enabled(s, e) && (IsLegStep(e) || MarkSucceeds(s, e))
    ensures BaseInv(c, Step(c, s, e))
  {
    BookkeepingTasks(c, s, e);
    if e.TriggerMarked? {
      MarkIds(c, s, e);
    } else {
      assert FlightFresh(s, s.rebalances[e.task]);
      LegIds(c, s, e);
    }
  }

  lemma RestartBase(c: Codec, s: State, e: Event)
    requires BaseInv(c, s) && Enabled(s, e) && e.Restart?
    ensures BaseInv(c, Step(c, s, e)) && Step(c, s, e).store == s.store
  {
    ReloadExact(c, e.keys, s.store);
  }

  /** Every step of every task keeps the base, and so does a restart at any point. */
  lemma StepKeepsBase(c: Codec, s: State, e: Event)
    requires BaseInv(c, s) && Enabled(s, e) && FreshIds(s, e)
    ensures BaseInv(c, Step(c, s, e))
  {
    if IsPollStep(e) {
      PollQuietTasks(c, s, e);
      PollQuietIds(c, s, e);
    } else if e.CustodialPaid? || e.LightningPaid? {
      PaidBase(c, s, e);
    } else if IsRecording(e) {
      RecordedBase(c, s, e);
    } else if IsTaskStep(e) || MarkFails(s, e) {
      TaskBase(c, s, e);
    } else if e.Restart? {
      RestartBase(c, s, e);
    } else {
      BookkeepingBase(c, s, e);
    }
  }

  // ----- Legs: in their place, and none left out

  /** If transfers stay, the same tasks are recording, and no mark is added, nothing is newly incomplete. */
  lemma LegsKept(s: State, t: State)
    requires LegInv(s) && SameTransfers(s.store, t.store) && SameRecordings(s, t) && t.orphans == s.orphans
    requires forall id :: t.store.HasTrigger(id) ==> s.store.HasTrigger(id)
    ensures LegInv(t)
  {
    forall task: nat | t.At(task) && t.rebalances[task].stage.HalfRecorded?
      ensures var key := Custodial(t.rebalances[task].stage.custodialId);
        key in t.store.mem && t.store.mem[key] == t.rebalances[task].Leg()
    {
      assert s.store.HasTransfer(Custodial(s.rebalances[task].stage.custodialId));
    }
    forall id | t.store.HasTransfer(id)
      ensures LegPlaced(t.store, id)
    {
      assert LegPlaced(s.store, id);
    }
    forall id | t.store.HasTrigger(id)
      ensures BothLegs(t.store, id) || BeingRecorded(t, id) || id in t.orphans
    {
      if BothLegs(s.store, id) {
        BothLegsStay(s.store, t.store, id);
      } else if BeingRecorded(s, id) {
        var task: nat :| s.At(task) && s.rebalances[task].stage.Recording() && s.rebalances[task].trigger == id;
        assert t.At(task) && t.rebalances[task] == s.rebalances[task];
      }
    }
  }

  lemma BothLegsStay(a: StoreState, b: StoreState, id: PaymentId)
    requires TransfersStay(a, b) && BothLegs(a, id)
    ensures BothLegs(b, id)
  {
    var custodial, lightning :| LegAt(a, Custodial(custodial), id) && LegAt(a, Lightning(lightning), id);
    assert LegAt(b, Custodial(custodial), id) && LegAt(b, Lightning(lightning), id);
  }

  /** Completeness of a trigger that the step of `task` is not about. */
  lemma CompleteElsewhere(s: State, t: State, task: nat, id: PaymentId)
    requires LockExact(s) && Complete(s) && s.store.HasTrigger(id)
    requires s.At(task) && s.rebalances[task].stage.HoldsLock()
    requires s.rebalances[task].stage.Recording() ==> s.rebalances[task].trigger != id
    requires t.orphans == s.orphans && TransfersStay(s.store, t.store)
    ensures BothLegs(t.store, id) || id in t.orphans
  {
    forall other: nat | s.At(other) && s.rebalances[other].stage.Recording()
      ensures s.rebalances[other].trigger != id
    {
      OnlyHolder(s, task, other);
    }
    if id !in s.orphans {
      BothLegsStay(s.store, t.store, id);
    }
  }

  lemma MarkLegs(c: Codec, s: State, e: Event)
    requires LegInv(s) && LockExact(s) && Enabled(s, e) && MarkSucceeds(s, e)
    ensures LegInv(Step(c, s, e))
  {
    var t := Step(c, s, e);
    var trigger := s.rebalances[e.task].trigger;
    TriggerMarkedNow(c, s, e);
    assert LegsPlaced(t.store) by {
      assert forall id :: s.store.HasTransfer(id) ==> LegPlaced(s.store, id);
    }
    forall task: nat | t.At(task) && t.rebalances[task].stage.HalfRecorded?
      ensures false
    {
      OnlyHolder(s, task, e.task);
    }
    forall id | t.store.HasTrigger(id)
      ensures BothLegs(t.store, id) || BeingRecorded(t, id) || id in t.orphans
    {
      if id == trigger {
        assert t.At(e.task) && t.rebalances[e.task].stage.Recording() && t.rebalances[e.task].trigger == id;
      } else {
        CompleteElsewhere(s, t, e.task, id);
      }
    }
  }

  /** A leg under a new id leaves the others in their place. */
  lemma LegPlacedToo(c: Codec, s: State, e: Event)
    requires LegsPlaced(s.store) && Enabled(s, e) && IsLegStep(e) && LegKey(s, e) !in s.store.mem
    ensures LegsPlaced(Step(c, s, e).store)
  {
    var t := Step(c, s, e);
    LegRecorded(c, s, e);
    forall id | t.store.HasTransfer(id)
      ensures LegPlaced(t.store, id)
    {
      assert id != LegKey(s, e) ==> LegPlaced(s.store, id);
    }
  }

  lemma CustodialLegLegs(c: Codec, s: State, e: Event)
    requires LegInv(s) && LockExact(s) && Enabled(s, e) && e.CustodialLegRecorded? && LegKey(s, e) !in s.store.mem
    ensures LegInv(Step(c, s, e))
  {
    var t := Step(c, s, e);
    LegRecorded(c, s, e);
    LegPlacedToo(c, s, e);
    forall task: nat | t.At(task) && t.rebalances[task].stage.HalfRecorded?
      ensures task == e.task
    {
      if task != e.task {
        OnlyHolder(s, task, e.task);
      }
    }
    forall id | t.store.HasTrigger(id)
      ensures BothLegs(t.store, id) || BeingRecorded(t, id) || id in t.orphans
    {
      if id == s.rebalances[e.task].trigger {
        assert t.At(e.task) && t.rebalances[e.task].stage.Recording() && t.rebalances[e.task].trigger == id;
      } else {
        CompleteElsewhere(s, t, e.task, id);
      }
    }
  }

  lemma LightningLegLegs(c: Codec, s: State, e: Event)
    requires LegInv(s) && LockExact(s) && Enabled(s, e) && e.LightningLegRecorded? && LegKey(s, e) !in s.store.mem
    ensures LegInv(Step(c, s, e))
  {
    var t := Step(c, s, e);
    var r := s.rebalances[e.task];
    LegRecorded(c, s, e);
    LegPlacedToo(c, s, e);
    forall task: nat | t.At(task) && t.rebalances[task].stage.HalfRecorded?
      ensures false
    {
      OnlyHolder(s, task, e.task);
    }
    forall id | t.store.HasTrigger(id)
      ensures BothLegs(t.store, id) || id in t.orphans
    {
      if id == r.trigger {
        assert LegAt(t.store, Custodial(r.stage.custodialId), id) && LegAt(t.store, Lightning(r.stage.lightningId), id);
      } else {
        CompleteElsewhere(s, t, e.task, id);
      }
    }
  }

  /** Every step keeps the legs in their place and complete, whatever payments are recorded anew. */
  lemma StepKeepsLegs(c: Codec, s: State, e: Event)
    requires BaseInv(c, s) && LegInv(s) && Enabled(s, e)
    ensures LegInv(Step(c, s, e))
  {
    if IsRecording(e) {
      RecordedKeyFree(s, e);
      RecordedPayment(c, s, e);
      LegsKept(s, Step(c, s, e));
    } else if IsLegStep(e) {
      assert FlightFresh(s, s.rebalances[e.task]);
      if e.CustodialLegRecorded? {
        CustodialLegLegs(c, s, e);
      } else {
        LightningLegLegs(c, s, e);
      }
    } else if MarkSucceeds(s, e) {
      MarkLegs(c, s, e);
    } else if e.Restart? {
      RestartBase(c, s, e);
    } else {
      QuietStep(c, s, e);
      LegsKept(s, Step(c, s, e));
    }
  }

  // ----- The ledger: transfers and their triggers

  /** Transfers stay sound if the same ones are there and no trigger in use loses its mark. */
  lemma LedgerKept(s: State, t: State)
    requires LedgerInv(s)
    requires SameTransfers(s.store, t.store) && SameRecordings(s, t)
    requires forall id :: s.store.HasTrigger(id) && InUse(s, id) ==> t.store.HasTrigger(id)
    ensures LedgerInv(t)
  {
    forall id | t.store.HasTransfer(id)
      ensures LegSound(t.store, id)
    {
      assert LegSound(s.store, id);
      assert LegAt(s.store, id, s.store.mem[id].ty.trigger);
    }
    assert OneRebalancePerTrigger(t.store);
    forall task: nat | t.At(task) && t.rebalances[task].stage.Recording()
      ensures RecordingSound(t, t.rebalances[task])
    {
      var r := s.rebalances[task];
      assert RecordingSound(s, r) && BeingRecorded(s, r.trigger);
    }
  }

  /** Marking a plain payment adds it to the marked ones and to nothing else. */
  lemma MarkLedger(c: Codec, store: StoreState, trigger: PaymentId)
    requires store.HasPayment(trigger) && LegsSound(store) && OneRebalancePerTrigger(store)
    ensures var t := store.Mark(c, trigger);
      && (forall id :: store.HasTransfer(id) <==> t.HasTransfer(id))
      && (forall id :: store.HasTransfer(id) ==> store.mem[id] == t.mem[id])
      && (forall id :: t.HasTrigger(id) <==> store.HasTrigger(id) || id == trigger)
      && LegsSound(t) && OneRebalancePerTrigger(t)
    ensures forall id :: store.HasTransfer(id) ==> store.mem[id].ty.trigger != trigger
  {
    assert forall id :: store.HasTransfer(id) ==> LegSound(store, id);
  }

  /** A leg goes under a new key, beside at most its twin. */
  lemma LegLedger(c: Codec, store: StoreState, key: PaymentId, leg: TxMetadata)
    requires LegsSound(store) && OneRebalancePerTrigger(store)
    requires key !in store.mem && leg.ty.TransferToNonCustodial? && store.HasTrigger(leg.ty.trigger)
    requires forall id :: store.HasTransfer(id) && store.mem[id].ty.trigger == leg.ty.trigger ==> store.mem[id] == leg
    ensures var t := store.Set(c, key, leg);
      && (forall id :: t.HasTransfer(id) <==> store.HasTransfer(id) || id == key)
      && (forall id :: store.HasTransfer(id) ==> t.mem[id] == store.mem[id])
      && (forall id :: t.HasTrigger(id) <==> store.HasTrigger(id))
      && (forall id :: t.HasTransfer(id) && t.mem[id].ty.trigger == leg.ty.trigger ==> t.mem[id] == leg)
      && LegsSound(t) && OneRebalancePerTrigger(t)
  {
    assert forall id :: store.HasTransfer(id) ==> LegSound(store, id);
  }

  lemma MarkRecords(c: Codec, s: State, e: Event)
    requires LedgerInv(s) && Enabled(s, e) && MarkSucceeds(s, e) && LockExact(Step(c, s, e))
    ensures LedgerInv(Step(c, s, e))
  {
    var t := Step(c, s, e);
    MarkLedger(c, s.store, s.rebalances[e.task].trigger);
    forall task: nat | t.At(task) && t.rebalances[task].stage.Recording()
      ensures RecordingSound(t, t.rebalances[task])
    {
      OnlyHolder(t, task, e.task);
    }
  }

  lemma LegRecords(c: Codec, s: State, e: Event)
    requires LedgerInv(s) && Enabled(s, e) && IsLegStep(e) && LegKey(s, e) !in s.store.mem && LockExact(Step(c, s, e))
    ensures LedgerInv(Step(c, s, e))
  {
    var t := Step(c, s, e);
    var r := s.rebalances[e.task];
    assert RecordingSound(s, r);
    LegLedger(c, s.store, LegKey(s, e), r.Leg());
    if e.CustodialLegRecorded? {
      forall task: nat | t.At(task) && t.rebalances[task].stage.Recording()
        ensures RecordingSound(t, t.rebalances[task])
      {
        OnlyHolder(t, task, e.task);
      }
    } else {
      assert t.lock == None;
    }
  }

  /** Every step keeps the ledger, if it records no payment anew that is in use as a trigger. */
  lemma StepKeepsLedger(c: Codec, s: State, e: Event)
    requires BaseInv(c, s) && LedgerInv(s) && Enabled(s, e) && FreshIds(s, e) && Harmless(s, e)
    ensures LedgerInv(Step(c, s, e))
  {
    if IsRecording(e) {
      RecordedKeyFree(s, e);
      RecordedPayment(c, s, e);
      LedgerKept(s, Step(c, s, e));
    } else if IsLegStep(e) {
      assert FlightFresh(s, s.rebalances[e.task]);
      BookkeepingTasks(c, s, e);
      LegRecords(c, s, e);
    } else if MarkSucceeds(s, e) {
      BookkeepingTasks(c, s, e);
      MarkRecords(c, s, e);
    } else if e.Restart? {
      RestartBase(c, s, e);
    } else {
      QuietStep(c, s, e);
      LedgerKept(s, Step(c, s, e));
    }
  }

  // ----- Marks

  /** Every step keeps the account of marks, if it records no marked payment anew. */
  lemma StepKeepsMarks(c: Codec, s: State, e: Event)
    requires BaseInv(c, s) && MarksExact(s) && Enabled(s, e) && UpsertSafe(s, e)
    ensures MarksExact(Step(c, s, e))
  {
    if IsRecording(e) {
      RecordedKeyFree(s, e);
      RecordedPayment(c, s, e);
    } else if IsLegStep(e) {
      assert FlightFresh(s, s.rebalances[e.task]);
      LegRecorded(c, s, e);
    } else if MarkSucceeds(s, e) {
      TriggerMarkedNow(c, s, e);
      assert s.rebalances[e.task].trigger !in s.marks;
    } else if e.Restart? {
      RestartBase(c, s, e);
    } else {
      QuietStep(c, s, e);
    }
  }

  // ----- All together

  /** Every harmless step of every task keeps the core invariant, and so does a restart at any point. */
  lemma StepKeepsCore(c: Codec, s: State, e: Event)
    requires CoreInv(c, s) && Enabled(s, e) && FreshIds(s, e) && Harmless(s, e)
    ensures CoreInv(c, Step(c, s, e))
  {
    StepKeepsBase(c, s, e);
    StepKeepsLegs(c, s, e);
    StepKeepsLedger(c, s, e);
  }

  lemma InUseIsMarked(s: State, id: PaymentId)
    requires LedgerInv(s)
    ensures InUse(s, id) ==> s.store.HasTrigger(id)
  {
    if leg :| LegAt(s.store, leg, id) {
      assert LegSound(s.store, leg);
    }
  }

  /** If no payment that has triggered a rebalance is recorded anew, the whole invariant is kept. */
  lemma StepKeepsInv(c: Codec, s: State, e: Event)
    requires Inv(c, s) && Enabled(s, e) && FreshIds(s, e) && UpsertSafe(s, e)
    ensures Inv(c, Step(c, s, e))
  {
    StepKeepsCore(c, s, e);
    StepKeepsMarks(c, s, e);
  }

  lemma StartInv(c: Codec)
    requires c.Lawful()
    ensures Inv(c, START)
  {
  }
}
