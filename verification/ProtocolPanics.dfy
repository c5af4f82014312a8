/** When exactly the two `expect`s of the rebalance code fire, in any interleaving. */
module ProtocolPanics {
  import opened Wrappers
  import opened Metadata
  import opened Store
  import opened Protocol
  import opened ProtocolSafety
  import opened ProtocolRuns

  // ----- What every run keeps, even if invoices are retried

  /** A rebalance yet to mark has a recorded trigger; one that the poll loop waits for has a plain one. */
  ghost predicate TriggersKnown(s: State) {
    forall task: nat | s.At(task) && s.rebalances[task].stage.BeforeMark() ::
      var trigger := s.rebalances[task].trigger;
      if trigger.Custodial? then s.store.HasPayment(trigger) && s.poll == Rebalancing(task) else Known(s.store, trigger)
  }

  /** Only rebalances of lightning payments panic, and the poll loop never waits for one of those. */
  ghost predicate CustodyNeverPanics(s: State) {
    && (forall task: nat | s.At(task) && s.rebalances[task].stage.Panicked? :: s.rebalances[task].trigger.Lightning?)
    && (s.poll.Rebalancing? ==> s.At(s.poll.task) && s.rebalances[s.poll.task].trigger.Custodial?)
  }

  ghost predicate Waiting(s: State) {
    TriggersKnown(s) && CustodyNeverPanics(s) && PollWaiting(s)
  }

  /** The only step that turns a plain custodial payment into something else is its own marking. */
  lemma CustodialPaymentsKept(c: Codec, s: State, e: Event, id: CustodialPaymentId)
    requires c.Lawful() && s.store.Mirrored(c) && InFlight(s) && Enabled(s, e)
    requires s.store.HasPayment(Custodial(id))
    ensures Step(c, s, e).store.HasPayment(Custodial(id)) ||
            (e.TriggerMarked? && s.rebalances[e.task].trigger == Custodial(id))
  {
    if e.Restart? {
      ReloadExact(c, e.keys, s.store);
    } else if e.CustodialLegRecorded? {
      assert FlightFresh(s, s.rebalances[e.task]);
    }
  }

  /** Tasks that are there before and after a step keep their trigger, and none goes back to waiting. */
  lemma TasksAdvance(c: Codec, s: State, e: Event, task: nat)
    requires Enabled(s, e) && s.At(task) && !e.Restart?
    ensures var t := Step(c, s, e);
      && t.At(task) && t.rebalances[task].trigger == s.rebalances[task].trigger
      && (t.rebalances[task].stage.BeforeMark() ==> s.rebalances[task].stage.BeforeMark())
      && (t.rebalances[task].stage.Panicked? ==>
            s.rebalances[task].stage.Panicked? ||
            (e.TriggerMarked? && e.task == task && !s.store.HasPayment(s.rebalances[task].trigger)))
  {
  }

  /** What the poll loop itself finds or inserts is plain. */
  lemma PollStepWaiting(c: Codec, s: State, e: Event)
    requires PollWaiting(s) && Enabled(s, e)
    requires e.PollList? || e.PollRead? || e.PollInsert? || e.PollDecide? || e.PollReturn?
    ensures PollWaiting(Step(c, s, e))
  {
  }

  lemma PollWaitingKept(c: Codec, s: State, e: Event)
    requires c.Lawful() && s.store.Mirrored(c) && InFlight(s) && Waiting(s) && Enabled(s, e)
    ensures PollWaiting(Step(c, s, e))
  {
    var t := Step(c, s, e);
    if e.PollList? || e.PollRead? || e.PollInsert? || e.PollDecide? || e.PollReturn? {
      PollStepWaiting(c, s, e);
    } else {
      if t.poll == s.poll && !s.poll.Rebalancing? {
        forall id: CustodialPaymentId | s.store.HasPayment(Custodial(id))
          ensures t.store.HasPayment(Custodial(id))
        {
          CustodialPaymentsKept(c, s, e, id);
        }
        CandidatesKept(s, t);
      }
    }
  }

  /** How the poll loop moves: it starts to wait only for a new task, and stops only for one that has ended. */
  lemma PollMoves(c: Codec, s: State, e: Event)
    requires Enabled(s, e) && PollWaiting(s) && !e.Restart?
    ensures var t := Step(c, s, e);
      && (e.PollDecide? && t.poll.Rebalancing? ==>
            && t.poll == Rebalancing(|s.rebalances|) && t.store == s.store
            && |t.rebalances| == |s.rebalances| + 1
            && t.rebalances[|s.rebalances|].stage.AwaitingLock?
            && t.rebalances[|s.rebalances|].trigger.Custodial?
            && s.store.HasPayment(t.rebalances[|s.rebalances|].trigger))
      && (e.LightningRecorded? ==>
            && |t.rebalances| == |s.rebalances| + 1
            && t.rebalances[|s.rebalances|] == Rebalance(Lightning(e.lightningId), AwaitingLock)
            && t.store.HasPayment(Lightning(e.lightningId)))
      && (!(e.PollDecide? && t.poll.Rebalancing?) && !e.LightningRecorded? ==> |t.rebalances| == |s.rebalances|)
      && (s.poll.Rebalancing? && !e.PollReturn? ==> t.poll == s.poll)
      && (!s.poll.Rebalancing? && !e.PollDecide? ==> !t.poll.Rebalancing?)
      && (e.PollReturn? ==>
            && !t.poll.Rebalancing? && s.poll.Rebalancing? && t.rebalances == s.rebalances
            && !s.rebalances[s.poll.task].stage.BeforeMark())
  {
  }

  lemma TriggersKnownKept(c: Codec, s: State, e: Event)
    requires BaseInv(c, s) && Waiting(s) && Enabled(s, e)
    ensures TriggersKnown(Step(c, s, e)) && CustodyNeverPanics(Step(c, s, e))
  {
    var t := Step(c, s, e);
    if !e.Restart? {
      StepForward(c, s, e);
      PollMoves(c, s, e);
      forall task: nat | t.At(task)
        ensures t.rebalances[task].stage.BeforeMark() ==>
                  var trigger := t.rebalances[task].trigger;
                  if trigger.Custodial? then t.store.HasPayment(trigger) && t.poll == Rebalancing(task)
                  else Known(t.store, trigger)
        ensures t.rebalances[task].stage.Panicked? ==> t.rebalances[task].trigger.Lightning?
      {
        if s.At(task) {
          TaskKnownKept(c, s, e, task);
        }
      }
      if t.poll.Rebalancing? && s.poll == t.poll {
        TasksAdvance(c, s, e, s.poll.task);
      }
    }
  }

  lemma TaskKnownKept(c: Codec, s: State, e: Event, task: nat)
    requires c.Lawful() && s.store.Mirrored(c) && InFlight(s)
    requires Waiting(s) && Enabled(s, e) && s.At(task) && !e.Restart?
    requires Forward(s.store, Step(c, s, e).store)
    ensures var t := Step(c, s, e);
      var trigger := t.rebalances[task].trigger;
      && (t.rebalances[task].stage.BeforeMark() ==>
            if trigger.Custodial? then t.store.HasPayment(trigger) && t.poll == Rebalancing(task)
            else Known(t.store, trigger))
      && (t.rebalances[task].stage.Panicked? ==> trigger.Lightning?)
  {
    var t := Step(c, s, e);
    TasksAdvance(c, s, e, task);
    PollMoves(c, s, e);
    var trigger := s.rebalances[task].trigger;
    if t.rebalances[task].stage.BeforeMark() && trigger.Custodial? {
      CustodialPaymentsKept(c, s, e, trigger.id);
    }
  }

  lemma {:induction false} RunWaiting(c: Codec, r: Run, i: nat)
    requires IsRun(c, r) && i < |r.states|
    ensures Waiting(r.states[i])
  {
    if i == 0 {
      assert r.states[0] == START;
    } else {
      RunWaiting(c, r, i - 1);
      RunBase(c, r, i - 1);
      assert StepAt(c, r, i - 1);
      TriggersKnownKept(c, r.states[i - 1], r.events[i - 1]);
      PollWaitingKept(c, r.states[i - 1], r.events[i - 1]);
    }
  }

  // ----- The `expect` on marking

  /** Some event before the `i`-th has marked the payment. */
  ghost predicate MarkedBefore(c: Codec, r: Run, i: nat, id: PaymentId)
    requires IsRun(c, r) && i < |r.states|
  {
    exists j :: 0 <= j < i && Marks(r.states[j], r.events[j], id)
  }

  lemma {:induction false} MarksAreHistory(c: Codec, r: Run, i: nat, id: PaymentId)
    requires IsRun(c, r) && i < |r.states|
    ensures id in r.states[i].marks <==> MarkedBefore(c, r, i, id)
  {
    if i == 0 {
      assert r.states[0] == START;
    } else {
      var s, e := r.states[i - 1], r.events[i - 1];
      assert StepAt(c, r, i - 1);
      MarksAreHistory(c, r, i - 1, id);
      MarksStep(c, s, e, id);
      if MarkedBefore(c, r, i, id) && !Marks(s, e, id) {
        var j :| 0 <= j < i && Marks(r.states[j], r.events[j], id);
        assert 0 <= j < i - 1;
      }
    }
  }

  lemma MarksStep(c: Codec, s: State, e: Event, id: PaymentId)
    requires Enabled(s, e)
    ensures id in Step(c, s, e).marks <==> id in s.marks || Marks(s, e, id)
  {
  }

  /** The event records the lightning payment `id`, perhaps anew. */
  ghost predicate Records(e: Event, id: PaymentId) {
    e.LightningRecorded? && Lightning(e.lightningId) == id
  }

  /** Some event before the `i`-th has marked the payment, and none since has recorded it anew. */
  ghost predicate MarkedSince(r: Run, i: nat, id: PaymentId)
    requires |r.states| == |r.events| + 1 && i < |r.states|
  {
    exists j :: 0 <= j < i && Marks(r.states[j], r.events[j], id) && forall k :: j < k < i ==> !Records(r.events[k], id)
  }

  lemma TriggerStep(c: Codec, s: State, e: Event, id: PaymentId)
    requires BaseInv(c, s) && Enabled(s, e)
    ensures Step(c, s, e).store.HasTrigger(id) <==> Marks(s, e, id) || (s.store.HasTrigger(id) && !Records(e, id))
  {
    if IsRecording(e) {
      RecordedKeyFree(s, e);
      RecordedPayment(c, s, e);
    } else if IsLegStep(e) {
      assert FlightFresh(s, s.rebalances[e.task]);
      LegRecorded(c, s, e);
    } else if MarkSucceeds(s, e) {
      TriggerMarkedNow(c, s, e);
    } else if e.Restart? {
      RestartBase(c, s, e);
    } else {
      QuietStep(c, s, e);
    }
  }

  lemma MarkedSinceStep(c: Codec, r: Run, i: nat, id: PaymentId)
    requires IsRun(c, r) && i < |r.events|
    ensures MarkedSince(r, i + 1, id) <==>
            Marks(r.states[i], r.events[i], id) || (MarkedSince(r, i, id) && !Records(r.events[i], id))
  {
    if MarkedSince(r, i, id) && !Records(r.events[i], id) {
      var j :| 0 <= j < i && Marks(r.states[j], r.events[j], id) && forall k :: j < k < i ==> !Records(r.events[k], id);
      assert forall k :: j < k < i + 1 ==> !Records(r.events[k], id);
    }
    if MarkedSince(r, i + 1, id) && !Marks(r.states[i], r.events[i], id) {
      var j :| 0 <= j < i + 1 && Marks(r.states[j], r.events[j], id) &&
               forall k :: j < k < i + 1 ==> !Records(r.events[k], id);
      assert j < i;
    }
  }

  /** In any run the store says exactly which payments have been marked since they were last recorded. */
  lemma {:induction false} TriggersAreHistory(c: Codec, r: Run, i: nat, id: PaymentId)
    requires IsRun(c, r) && i < |r.states|
    ensures r.states[i].store.HasTrigger(id) <==> MarkedSince(r, i, id)
  {
    if i == 0 {
      assert r.states[0] == START;
    } else {
      TriggersAreHistory(c, r, i - 1, id);
      RunBase(c, r, i - 1);
      assert StepAt(c, r, i - 1);
      TriggerStep(c, r.states[i - 1], r.events[i - 1], id);
      MarkedSinceStep(c, r, i - 1, id);
    }
  }

  /**
   * In any run the `expect` on marking fires exactly when the same payment has been marked before and has
   * not been recorded anew since, which the store tells. It never fires for a payment in custody.
   */
  lemma MarkingPanicsExactly(c: Codec, r: Run, i: nat)
    requires IsRun(c, r) && i < |r.events| && r.events[i].TriggerMarked?
    ensures StepAt(c, r, i)
    ensures var trigger := r.states[i].rebalances[r.events[i].task].trigger;
      && (!Marks(r.states[i], r.events[i], trigger) <==> r.states[i].store.HasTrigger(trigger))
      && (!Marks(r.states[i], r.events[i], trigger) <==> MarkedSince(r, i, trigger))
      && (trigger.Custodial? ==> Marks(r.states[i], r.events[i], trigger))
  {
    assert StepAt(c, r, i);
    var trigger := r.states[i].rebalances[r.events[i].task].trigger;
    RunWaiting(c, r, i);
    TriggersAreHistory(c, r, i, trigger);
    assert r.states[i].rebalances[r.events[i].task].stage.BeforeMark();
  }

  /** In a safe run, then, exactly when it has been marked before: when it has triggered two rebalances. */
  lemma SafeMarkingPanicsExactly(c: Codec, r: Run, i: nat)
    requires IsRun(c, r) && Safe(r) && i < |r.events| && r.events[i].TriggerMarked?
    ensures StepAt(c, r, i)
    ensures var trigger := r.states[i].rebalances[r.events[i].task].trigger;
      !Marks(r.states[i], r.events[i], trigger) <==> MarkedBefore(c, r, i, trigger)
  {
    MarkingPanicsExactly(c, r, i);
    RunInv(c, r, i);
    MarksAreHistory(c, r, i, r.states[i].rebalances[r.events[i].task].trigger);
  }

  /** A payment can be marked a second time only if it has been recorded anew in between. */
  lemma MarkedTwiceIfRecordedAnew(c: Codec, r: Run, i: nat, j: nat, id: PaymentId)
    requires IsRun(c, r) && i < j < |r.events|
    requires Marks(r.states[i], r.events[i], id) && Marks(r.states[j], r.events[j], id)
    ensures exists k :: i < k < j && Records(r.events[k], id)
  {
    TriggersAreHistory(c, r, j, id);
    assert !MarkedSince(r, j, id);
  }

  /** The rebalances that the poll loop waits for never panic. */
  lemma CustodialRebalancesSurvive(c: Codec, r: Run, i: nat)
    requires IsRun(c, r) && i < |r.states|
    ensures forall task: nat :: r.states[i].At(task) && r.states[i].rebalances[task].trigger.Custodial? ==>
              !r.states[i].rebalances[task].stage.Panicked?
  {
    RunWaiting(c, r, i);
  }

  // ----- The `expect` of the poll loop

  predicate InPass(s: State) {
    s.poll.Scanning? || s.poll.Inserting?
  }

  /** Recorded, but not as a plain payment. */
  predicate Spent(store: StoreState, id: CustodialPaymentId) {
    Custodial(id) in store.mem && !store.HasPayment(Custodial(id))
  }

  /** The pass over `entries` still has to look at `e`. */
  predicate Unread(s: State, e: CustodialPayment)
    requires InPass(s)
  {
    e in s.poll.left || (s.poll.Inserting? && e == s.poll.entry)
  }

  /** What a pass over `entries` has learnt: it has nobody to charge only if all it read is spent. */
  ghost predicate PassKnows(s: State, entries: seq<CustodialPayment>)
    requires InPass(s)
  {
    && (forall e :: Unread(s, e) ==> e in entries)
    && (s.poll.Inserting? ==> !s.poll.entry.outbound)
    && (forall candidate :: candidate in s.poll.newTxn ==> candidate.id in InboundIds(entries))
    && (s.poll.latest.Some? ==> s.poll.latest.value.id in InboundIds(entries))
    && (s.poll.newTxn == [] && s.poll.latest.None? ==>
          forall e :: e in entries && !e.outbound && !Unread(s, e) ==> Spent(s.store, e.id))
  }

  lemma SpentStays(a: StoreState, b: StoreState, id: CustodialPaymentId)
    requires Forward(a, b) && Spent(a, id)
    ensures Spent(b, id)
  {
    assert a.HasTrigger(Custodial(id)) || a.HasTransfer(Custodial(id));
  }

  lemma PassReads(c: Codec, s: State, entries: seq<CustodialPayment>)
    requires s.poll.Scanning? && s.poll.left != [] && PassKnows(s, entries)
    ensures PassKnows(Step(c, s, PollRead), entries)
  {
    var first, rest := s.poll.left[0], s.poll.left[1..];
    assert s.poll.left == [first] + rest;
    assert forall e :: e in s.poll.left <==> e == first || e in rest;
    assert Unread(s, first);
  }

  /** Only reading and inserting concern the pass; whatever else happens, what is spent stays spent. */
  lemma PassKnowsKept(c: Codec, s: State, e: Event, entries: seq<CustodialPayment>)
    requires Enabled(s, e) && InPass(s) && PassKnows(s, entries) && InPass(Step(c, s, e))
    requires Forward(s.store, Step(c, s, e).store)
    ensures PassKnows(Step(c, s, e), entries)
  {
    var t := Step(c, s, e);
    if e.PollRead? {
      PassReads(c, s, entries);
    } else if e.PollInsert? {
      assert Unread(s, s.poll.entry);
      assert t.poll.newTxn != [];
    } else {
      assert t.poll == s.poll;
      forall id | Spent(s.store, id)
        ensures Spent(t.store, id)
      {
        SpentStays(s.store, t.store, id);
      }
    }
  }

  /** A pass that goes on at state `i` began with some event `j`, and knows its entries. */
  lemma {:induction false} PassBegan(c: Codec, r: Run, i: nat) returns (j: nat)
    requires IsRun(c, r) && i < |r.states| && InPass(r.states[i])
    ensures j < i && r.events[j].PollList? && PassKnows(r.states[i], r.events[j].entries)
    ensures forall k :: j < k <= i ==> InPass(r.states[k])
  {
    assert i > 0;
    assert StepAt(c, r, i - 1);
    var s, e := r.states[i - 1], r.events[i - 1];
    if InPass(s) {
      j := PassBegan(c, r, i - 1);
      RunStepForward(c, r, i - 1);
      PassKnowsKept(c, s, e, r.events[j].entries);
    } else {
      j := i - 1;
    }
  }

  /**
   * In any run the poll loop dies at a decision exactly when it has to charge somebody and every
   * inbound payment that it listed for this pass is by then recorded, and none as a plain payment.
   */
  lemma PollDiesExactly(c: Codec, r: Run, i: nat) returns (j: nat)
    requires IsRun(c, r) && i < |r.events| && r.events[i].PollDecide?
    ensures j < i && r.events[j].PollList? && forall k :: j < k <= i ==> InPass(r.states[k])
    ensures r.states[i + 1].poll.Dead? <==>
            r.events[i].transfer && forall id :: id in InboundIds(r.events[j].entries) ==> Spent(r.states[i].store, id)
  {
    assert StepAt(c, r, i);
    j := PassBegan(c, r, i);
    RunWaiting(c, r, i);
  }

  /** And it dies nowhere else. */
  lemma PollDiesDeciding(c: Codec, r: Run, i: nat)
    requires IsRun(c, r) && i < |r.events|
    requires !r.states[i].poll.Dead? && r.states[i + 1].poll.Dead?
    ensures r.events[i].PollDecide?
  {
    assert StepAt(c, r, i);
    RunWaiting(c, r, i);
  }
}
