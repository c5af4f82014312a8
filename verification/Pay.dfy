/** The payment scheduler (`Wallet::pay`): which source tries which method, and when it stops. */
module Pay {
  import opened Wrappers
  import opened Amounts
  import opened Instructions
  import opened Metadata
  import opened Store

  datatype Source = Custody | OwnNode

  datatype NodeError = InsufficientFunds | OtherNodeError(code: int)
  datatype WalletError = LdkNodeFailure(node: NodeError) | CustodialFailure(code: int)

  /** The method at `index`, paid from `source`. */
  datatype Attempt = Attempt(source: Source, index: nat)

  /** What the two services answer, for each method in the list. */
  datatype Services = Services(
    custodialFee: nat -> Option<Amount>,
    custodialPay: nat -> Result<CustodialPaymentId, int>,
    nodeFee: nat -> Option<Amount>,
    nodePay: nat -> Result<Bytes32, NodeError>)

  /** A payment to make, with the balances as they were read at the start. */
  datatype Order = Order(
    methods: seq<PaymentMethod>, amount: Amount, custodialBalance: Amount, nodeBalance: Amount, services: Services)
  {
    function Balance(source: Source): Amount {
      if source.Custody? then custodialBalance else nodeBalance
    }

    function Fee(a: Attempt): Option<Amount> {
      if a.source.Custody? then services.custodialFee(a.index) else services.nodeFee(a.index)
    }

    /** The source can pay the amount, and the amount with its fee. */
    predicate Affordable(a: Attempt) {
      && amount.msats <= Balance(a.source).msats
      && Fee(a).Some?
      && CoveredBy(amount, Fee(a).value, Balance(a.source))
    }

    function VerdictOn(a: Attempt): Verdict {
      if !Affordable(a) then NotTried
      else if a.source.Custody? then
        (match services.custodialPay(a.index)
         case Ok(id) => Succeeded(Custodial(id))
         case Err(e) => Refused(CustodialFailure(e)))
      else
        (match services.nodePay(a.index)
         case Ok(id) => Succeeded(Lightning(id))
         case Err(e) => Refused(LdkNodeFailure(e)))
    }
  }

  datatype Verdict = NotTried | Succeeded(id: PaymentId) | Refused(error: WalletError)

  // ----- The schedule

  /** One pass over the methods: those paid over lightning, or those paid on-chain. */
  function Phase(methods: seq<PaymentMethod>, source: Source, lightning: bool): seq<Attempt> {
    if methods == [] then []
    else
      var n := |methods| - 1;
      Phase(methods[..n], source, lightning) +
      (if methods[n].IsLightning() == lightning then [Attempt(source, n)] else [])
  }

  function Schedule(methods: seq<PaymentMethod>): seq<Attempt> {
    Phase(methods, Custody, true) + Phase(methods, OwnNode, true) +
    Phase(methods, Custody, false) + Phase(methods, OwnNode, false)
  }

  /** A phase lists exactly the methods of its kind, in order. */
  lemma {:induction false} PhaseIs(methods: seq<PaymentMethod>, source: Source, lightning: bool)
    ensures forall a :: a in Phase(methods, source, lightning) <==>
              a.source == source && a.index < |methods| && methods[a.index].IsLightning() == lightning
    ensures forall i, j :: 0 <= i < j < |Phase(methods, source, lightning)| ==>
              Phase(methods, source, lightning)[i].index < Phase(methods, source, lightning)[j].index
  {
    if methods == [] {
    } else {
      var n := |methods| - 1;
      var before := Phase(methods[..n], source, lightning);
      PhaseIs(methods[..n], source, lightning);
      assert Phase(methods, source, lightning) ==
             before + (if methods[n].IsLightning() == lightning then [Attempt(source, n)] else []);
      assert forall i :: 0 <= i < |before| ==> before[i] in before;
    }
  }

  // ----- Playing a schedule

  /** The calls made to the services so far, and the last error from each. */
  datatype Progress = Progress(calls: seq<Attempt>, lastCustodial: Option<WalletError>, lastNode: Option<WalletError>) {
    function Failing(a: Attempt, error: WalletError): Progress {
      if a.source.Custody? then Progress(calls + [a], Some(error), lastNode)
      else Progress(calls + [a], lastCustodial, Some(error))
    }

    function FinalError(): WalletError {
      match lastNode
      case Some(e) => e
      case None => lastCustodial.GetOr(LdkNodeFailure(InsufficientFunds))
    }
  }

  datatype Played = Played(progress: Progress, paid: Option<(Attempt, PaymentId)>)

  function Play(order: Order, attempts: seq<Attempt>, p: Progress): Played {
    if attempts == [] then Played(p, None)
    else
      match order.VerdictOn(attempts[0])
      case NotTried => Play(order, attempts[1..], p)
      case Refused(e) => Play(order, attempts[1..], p.Failing(attempts[0], e))
      case Succeeded(id) => Played(p.(calls := p.calls + [attempts[0]]), Some((attempts[0], id)))
  }

  lemma {:induction false} PlayConcat(order: Order, a: seq<Attempt>, b: seq<Attempt>, p: Progress)
    ensures Play(order, a + b, p) ==
            if Play(order, a, p).paid.Some? then Play(order, a, p) else Play(order, b, Play(order, a, p).progress)
  {
    if a == [] {
      assert a + b == b;
    } else {
      assert (a + b)[1..] == a[1..] + b;
      match order.VerdictOn(a[0])
      case NotTried => PlayConcat(order, a[1..], b, p);
      case Refused(e) => PlayConcat(order, a[1..], b, p.Failing(a[0], e));
      case Succeeded(_) =>
    }
  }

  // ----- What playing a schedule means

  /** The attempts that reach a service. */
  function Tried(order: Order, attempts: seq<Attempt>): seq<Attempt> {
    if attempts == [] then []
    else (if order.VerdictOn(attempts[0]).NotTried? then [] else [attempts[0]]) + Tried(order, attempts[1..])
  }

  ghost predicate NoneSucceeds(order: Order, attempts: seq<Attempt>) {
    forall i :: 0 <= i < |attempts| ==> !order.VerdictOn(attempts[i]).Succeeded?
  }

  /** `attempts[k]` succeeds, and nothing before it does. */
  ghost predicate FirstSuccess(order: Order, attempts: seq<Attempt>, k: nat) {
    k < |attempts| && order.VerdictOn(attempts[k]).Succeeded? && NoneSucceeds(order, attempts[..k])
  }

  /** The last error that `source` reported among the attempts. */
  function LastError(order: Order, attempts: seq<Attempt>, source: Source): Option<WalletError> {
    if attempts == [] then None
    else
      var last := attempts[|attempts| - 1];
      if last.source == source && order.VerdictOn(last).Refused? then Some(order.VerdictOn(last).error)
      else LastError(order, attempts[..|attempts| - 1], source)
  }

  lemma {:induction false} LastErrorFront(order: Order, a: Attempt, rest: seq<Attempt>, source: Source)
    ensures LastError(order, [a] + rest, source) ==
            if LastError(order, rest, source).Some? then LastError(order, rest, source)
            else if a.source == source && order.VerdictOn(a).Refused? then Some(order.VerdictOn(a).error) else None
  {
    var all := [a] + rest;
    if rest == [] {
      assert all == [a] && all[..0] == [];
    } else {
      var n := |rest| - 1;
      assert all[..|all| - 1] == [a] + rest[..n];
      LastErrorFront(order, a, rest[..n], source);
    }
  }

  function OrElse(a: Option<WalletError>, b: Option<WalletError>): Option<WalletError> {
    if a.Some? then a else b
  }

  /** Without a success everything affordable is tried, and the last errors are kept. */
  lemma {:induction false} PlayFails(order: Order, attempts: seq<Attempt>, p: Progress)
    requires NoneSucceeds(order, attempts)
    ensures Play(order, attempts, p) ==
            Played(Progress(p.calls + Tried(order, attempts),
                            OrElse(LastError(order, attempts, Custody), p.lastCustodial),
                            OrElse(LastError(order, attempts, OwnNode), p.lastNode)), None)
  {
    if attempts == [] {
      assert p.calls + [] == p.calls;
    } else {
      var a, rest := attempts[0], attempts[1..];
      assert attempts == [a] + rest;
      LastErrorFront(order, a, rest, Custody);
      LastErrorFront(order, a, rest, OwnNode);
      assert !order.VerdictOn(a).Succeeded?;
      var next := match order.VerdictOn(a) case Refused(e) => p.Failing(a, e) case _ => p;
      PlayFails(order, rest, next);
      assert next.calls + Tried(order, rest) == p.calls + Tried(order, attempts);
    }
  }

  /** With a success, nothing after the first one is tried. */
  lemma {:induction false} PlaySucceeds(order: Order, attempts: seq<Attempt>, p: Progress, k: nat)
    requires FirstSuccess(order, attempts, k)
    ensures Play(order, attempts, p).paid == Some((attempts[k], order.VerdictOn(attempts[k]).id))
    ensures Play(order, attempts, p).progress.calls == p.calls + Tried(order, attempts[..k]) + [attempts[k]]
  {
    assert attempts == attempts[..k] + attempts[k..];
    PlayConcat(order, attempts[..k], attempts[k..], p);
    PlayFails(order, attempts[..k], p);
  }

  const NOTHING_YET := Progress([], None, None)

  /**
   * The whole scheduler: the first success in the schedule decides, and nothing is attempted after it;
   * failing that, the last lightning error, else the last custodial one, else insufficient funds.
   */
  lemma PlayIsFirstSuccess(order: Order)
    ensures var schedule := Schedule(order.methods);
      var played := Play(order, schedule, NOTHING_YET);
      && (played.paid.None? <==> NoneSucceeds(order, schedule))
      && (forall k: nat :: FirstSuccess(order, schedule, k) ==>
            played.paid == Some((schedule[k], order.VerdictOn(schedule[k]).id)) &&
            played.progress.calls == Tried(order, schedule[..k]) + [schedule[k]])
      && (played.paid.None? ==>
            played.progress.calls == Tried(order, schedule) &&
            played.progress.FinalError() ==
              OrElse(LastError(order, schedule, OwnNode),
                     LastError(order, schedule, Custody)).GetOr(LdkNodeFailure(InsufficientFunds)))
  {
    var schedule := Schedule(order.methods);
    if NoneSucceeds(order, schedule) {
      PlayFails(order, schedule, NOTHING_YET);
    } else {
      var k := SomeFirst(order, schedule);
      PlaySucceeds(order, schedule, NOTHING_YET, k);
    }
    forall k: nat | FirstSuccess(order, schedule, k)
      ensures Play(order, schedule, NOTHING_YET).paid == Some((schedule[k], order.VerdictOn(schedule[k]).id))
      ensures Play(order, schedule, NOTHING_YET).progress.calls == Tried(order, schedule[..k]) + [schedule[k]]
    {
      PlaySucceeds(order, schedule, NOTHING_YET, k);
    }
  }

  lemma {:induction false} SomeFirst(order: Order, attempts: seq<Attempt>) returns (k: nat)
    requires !NoneSucceeds(order, attempts)
    ensures FirstSuccess(order, attempts, k)
  {
    if order.VerdictOn(attempts[0]).Succeeded? {
      k := 0;
    } else {
      assert forall i :: 1 <= i < |attempts| ==> attempts[i] == attempts[1..][i - 1];
      var rest := SomeFirst(order, attempts[1..]);
      k := rest + 1;
      assert attempts[..k] == [attempts[0]] + attempts[1..][..rest];
    }
  }

  /** The payment that succeeded is one of the methods, under an id of the source that made it. */
  lemma PaidIsScheduled(order: Order)
    ensures match Play(order, Schedule(order.methods), NOTHING_YET).paid
      case None => true
      case Some(paid) =>
        && paid.0.index < |order.methods|
        && order.VerdictOn(paid.0) == Succeeded(paid.1)
        && (paid.0.source.OwnNode? <==> paid.1.Lightning?)
  {
    var schedule := Schedule(order.methods);
    PlayIsFirstSuccess(order);
    if !NoneSucceeds(order, schedule) {
      var k := SomeFirst(order, schedule);
      assert schedule[k] in schedule;
      PhaseIs(order.methods, Custody, true);
      PhaseIs(order.methods, OwnNode, true);
      PhaseIs(order.methods, Custody, false);
      PhaseIs(order.methods, OwnNode, false);
    }
  }

  /** Every call stays within the balance of its source, unless that is at the 21 million bitcoin cap. */
  lemma {:induction false} TriedAffordable(order: Order, attempts: seq<Attempt>)
    ensures forall a :: a in Tried(order, attempts) ==>
              && a in attempts
              && (a.source.Custody? ==> order.services.custodialFee(a.index).Some?)
              && (a.source.Custody? && order.custodialBalance.msats < MAX_MSATS ==>
                    order.amount.msats + order.services.custodialFee(a.index).value.msats
                      <= order.custodialBalance.msats)
              && (a.source.OwnNode? ==> order.services.nodeFee(a.index).Some?)
              && (a.source.OwnNode? && order.nodeBalance.msats < MAX_MSATS ==>
                    order.amount.msats + order.services.nodeFee(a.index).value.msats <= order.nodeBalance.msats)
  {
    if attempts == [] {
    } else {
      TriedAffordable(order, attempts[1..]);
      var a := attempts[0];
      if !order.VerdictOn(a).NotTried? {
        CoveredByMeans(order.amount, order.Fee(a).value, order.Balance(a.source));
      }
    }
  }

  // ----- The whole scheduler, over the balances and the services' answers

  ghost predicate CustodyCovers(order: Order, i: nat) {
    var fee := order.services.custodialFee(i);
    && order.amount.msats <= order.custodialBalance.msats && fee.Some?
    && (|| order.amount.msats + fee.value.msats <= order.custodialBalance.msats
        || MAX_MSATS <= order.custodialBalance.msats)
  }

  ghost predicate NodeCovers(order: Order, i: nat) {
    var fee := order.services.nodeFee(i);
    && order.amount.msats <= order.nodeBalance.msats && fee.Some?
    && (order.amount.msats + fee.value.msats <= order.nodeBalance.msats || MAX_MSATS <= order.nodeBalance.msats)
  }

  ghost predicate Covers(order: Order, a: Attempt) {
    (a.source.Custody? ==> CustodyCovers(order, a.index)) && (a.source.OwnNode? ==> NodeCovers(order, a.index))
  }

  /** The service that is asked accepts the payment. */
  ghost predicate Delivers(order: Order, a: Attempt) {
    && Covers(order, a)
    && (a.source.Custody? ==> order.services.custodialPay(a.index).Ok?)
    && (a.source.OwnNode? ==> order.services.nodePay(a.index).Ok?)
  }

  /** Lightning before on-chain, then custody before the own node, then in the order of the methods. */
  ghost predicate Precedes(methods: seq<PaymentMethod>, a: Attempt, b: Attempt)
    requires a.index < |methods| && b.index < |methods|
  {
    if methods[a.index].OnChain? != methods[b.index].OnChain? then methods[b.index].OnChain?
    else if a.source != b.source then a.source.Custody?
    else a.index < b.index
  }

  /** The verdict on an attempt is what the service at hand answers, if its own balance covers amount and fee. */
  lemma VerdictExactly(order: Order, a: Attempt)
    ensures order.VerdictOn(a).NotTried? <==> !Covers(order, a)
    ensures order.VerdictOn(a).Succeeded? <==> Delivers(order, a)
    ensures a.source.Custody? && Covers(order, a) ==>
              match order.services.custodialPay(a.index)
              case Ok(id) => order.VerdictOn(a) == Succeeded(Custodial(id))
              case Err(e) => order.VerdictOn(a) == Refused(CustodialFailure(e))
    ensures a.source.OwnNode? && Covers(order, a) ==>
              match order.services.nodePay(a.index)
              case Ok(id) => order.VerdictOn(a) == Succeeded(Lightning(id))
              case Err(e) => order.VerdictOn(a) == Refused(LdkNodeFailure(e))
  {
    if a.source.Custody? {
      if order.services.custodialFee(a.index).Some? {
        CoveredByMeans(order.amount, order.services.custodialFee(a.index).value, order.custodialBalance);
      }
    } else if order.services.nodeFee(a.index).Some? {
      CoveredByMeans(order.amount, order.services.nodeFee(a.index).value, order.nodeBalance);
    }
  }

  ghost predicate InRange(methods: seq<PaymentMethod>, attempts: seq<Attempt>) {
    forall i :: 0 <= i < |attempts| ==> attempts[i].index < |methods|
  }

  ghost predicate Ordered(methods: seq<PaymentMethod>, attempts: seq<Attempt>)
    requires InRange(methods, attempts)
  {
    forall i, j :: 0 <= i < j < |attempts| ==> Precedes(methods, attempts[i], attempts[j])
  }

  lemma OrderedConcat(methods: seq<PaymentMethod>, a: seq<Attempt>, b: seq<Attempt>)
    requires InRange(methods, a) && InRange(methods, b) && Ordered(methods, a) && Ordered(methods, b)
    requires forall x, y :: x in a && y in b ==> Precedes(methods, x, y)
    ensures InRange(methods, a + b) && Ordered(methods, a + b)
  {
    assert forall i :: 0 <= i < |a| ==> a[i] in a;
    assert forall i :: 0 <= i < |b| ==> b[i] in b;
  }

  lemma PhaseOrdered(methods: seq<PaymentMethod>, source: Source, lightning: bool)
    ensures var phase := Phase(methods, source, lightning); InRange(methods, phase) && Ordered(methods, phase)
  {
    var phase := Phase(methods, source, lightning);
    PhaseIs(methods, source, lightning);
    assert forall i :: 0 <= i < |phase| ==> phase[i] in phase;
  }

  /** The schedule lists every method once for each source, in that order. */
  lemma ScheduleIs(methods: seq<PaymentMethod>)
    ensures InRange(methods, Schedule(methods)) && Ordered(methods, Schedule(methods))
    ensures forall a :: a in Schedule(methods) <==> a.index < |methods|
  {
    var a, b := Phase(methods, Custody, true), Phase(methods, OwnNode, true);
    var c, d := Phase(methods, Custody, false), Phase(methods, OwnNode, false);
    PhaseOrdered(methods, Custody, true);
    PhaseOrdered(methods, OwnNode, true);
    PhaseOrdered(methods, Custody, false);
    PhaseOrdered(methods, OwnNode, false);
    PhaseIs(methods, Custody, true);
    PhaseIs(methods, OwnNode, true);
    PhaseIs(methods, Custody, false);
    PhaseIs(methods, OwnNode, false);
    OrderedConcat(methods, a, b);
    OrderedConcat(methods, a + b, c);
    OrderedConcat(methods, a + b + c, d);
    assert Schedule(methods) == a + b + c + d;
    forall x: Attempt | x.index < |methods|
      ensures x in Schedule(methods)
    {
      assert x in Phase(methods, x.source, methods[x.index].IsLightning());
    }
  }

  /** The calls are the covered attempts, in order. */
  lemma {:induction false} TriedAre(order: Order, attempts: seq<Attempt>)
    requires InRange(order.methods, attempts) && Ordered(order.methods, attempts)
    ensures forall a :: a in Tried(order, attempts) <==> a in attempts && Covers(order, a)
    ensures InRange(order.methods, Tried(order, attempts)) && Ordered(order.methods, Tried(order, attempts))
  {
    if attempts == [] {
    } else {
      var a, rest := attempts[0], attempts[1..];
      assert attempts == [a] + rest;
      TriedAre(order, rest);
      VerdictExactly(order, a);
      assert forall i :: 0 <= i < |Tried(order, rest)| ==> Tried(order, rest)[i] in Tried(order, rest);
      assert forall b :: b in rest ==> Precedes(order.methods, a, b);
      OrderedConcat(order.methods, [a], Tried(order, rest));
    }
  }

  /** The last of the attempts that `source` covers is the one whose error counts. */
  ghost predicate LastCovered(order: Order, source: Source, a: Attempt) {
    && a.index < |order.methods| && a.source == source && Covers(order, a)
    && (forall b: Attempt :: b.index < |order.methods| && b.source == source && Covers(order, b) && b != a ==>
          Precedes(order.methods, b, a))
  }

  /** The attempt at `k` is refused with `e`, and `source` covers none after it. */
  ghost predicate RefusedLast(order: Order, attempts: seq<Attempt>, source: Source, k: nat, e: WalletError) {
    && k < |attempts| && attempts[k].source == source && Covers(order, attempts[k])
    && order.VerdictOn(attempts[k]) == Refused(e)
    && (forall j :: k < j < |attempts| && attempts[j].source == source ==> !Covers(order, attempts[j]))
  }

  lemma {:induction false} LastErrorIs(order: Order, attempts: seq<Attempt>, source: Source)
    requires NoneSucceeds(order, attempts)
    ensures LastError(order, attempts, source).None? ==>
              forall a :: a in attempts && a.source == source ==> !Covers(order, a)
    ensures LastError(order, attempts, source).Some? ==>
              exists k: nat :: RefusedLast(order, attempts, source, k, LastError(order, attempts, source).value)
  {
    if attempts == [] {
    } else {
      var before, last := attempts[..|attempts| - 1], attempts[|attempts| - 1];
      assert attempts == before + [last];
      VerdictExactly(order, last);
      assert !order.VerdictOn(last).Succeeded?;
      if last.source == source && Covers(order, last) {
        assert RefusedLast(order, attempts, source, |attempts| - 1, LastError(order, attempts, source).value);
      } else {
        LastErrorIs(order, before, source);
        assert LastError(order, attempts, source) == LastError(order, before, source);
        if LastError(order, before, source).Some? {
          var e := LastError(order, before, source).value;
          var k: nat :| RefusedLast(order, before, source, k, e);
          assert RefusedLast(order, attempts, source, k, LastError(order, attempts, source).value);
        }
      }
    }
  }

  lemma RefusedLastCounts(order: Order, source: Source, k: nat, e: WalletError)
    requires RefusedLast(order, Schedule(order.methods), source, k, e)
    ensures LastCovered(order, source, Schedule(order.methods)[k])
  {
    var schedule := Schedule(order.methods);
    ScheduleIs(order.methods);
    assert schedule[k] in schedule;
    forall b: Attempt | b.index < |order.methods| && b.source == source && Covers(order, b) && b != schedule[k]
      ensures Precedes(order.methods, b, schedule[k])
    {
      var j :| 0 <= j < |schedule| && schedule[j] == b;
    }
  }

  /** The error that counts is that of the last covered attempt. */
  lemma LastErrorCounts(order: Order, source: Source)
    requires NoneSucceeds(order, Schedule(order.methods))
    ensures match LastError(order, Schedule(order.methods), source)
      case None => forall a: Attempt :: a.index < |order.methods| && a.source == source ==> !Covers(order, a)
      case Some(e) => exists a :: LastCovered(order, source, a) && order.VerdictOn(a) == Refused(e)
  {
    var schedule := Schedule(order.methods);
    LastErrorIs(order, schedule, source);
    var last := LastError(order, schedule, source);
    if last.Some? {
      var k: nat :| RefusedLast(order, schedule, source, k, last.value);
      RefusedLastCounts(order, source, k, last.value);
    } else {
      ScheduleIs(order.methods);
    }
  }

  lemma NodeErrorCounts(order: Order)
    requires NoneSucceeds(order, Schedule(order.methods))
    ensures match LastError(order, Schedule(order.methods), OwnNode)
      case None => forall a: Attempt :: a.index < |order.methods| && a.source.OwnNode? ==> !Covers(order, a)
      case Some(e) => exists a :: LastCovered(order, OwnNode, a) && order.services.nodePay(a.index).Err? &&
                                  e == LdkNodeFailure(order.services.nodePay(a.index).error)
  {
    LastErrorCounts(order, OwnNode);
    var last := LastError(order, Schedule(order.methods), OwnNode);
    if last.Some? {
      var a :| LastCovered(order, OwnNode, a) && order.VerdictOn(a) == Refused(last.value);
      VerdictExactly(order, a);
    }
  }

  lemma CustodialErrorCounts(order: Order)
    requires NoneSucceeds(order, Schedule(order.methods))
    ensures match LastError(order, Schedule(order.methods), Custody)
      case None => forall a: Attempt :: a.index < |order.methods| && a.source.Custody? ==> !Covers(order, a)
      case Some(e) => exists a :: LastCovered(order, Custody, a) && order.services.custodialPay(a.index).Err? &&
                                  e == CustodialFailure(order.services.custodialPay(a.index).error)
  {
    LastErrorCounts(order, Custody);
    var last := LastError(order, Schedule(order.methods), Custody);
    if last.Some? {
      var a :| LastCovered(order, Custody, a) && order.VerdictOn(a) == Refused(last.value);
      VerdictExactly(order, a);
    }
  }

  /** Which payment goes through: the first attempt, in the order above, that is covered and accepted. */
  ghost predicate GoesThrough(order: Order, a: Attempt, id: PaymentId) {
    && a.index < |order.methods| && Delivers(order, a)
    && (a.source.Custody? ==> id == Custodial(order.services.custodialPay(a.index).value))
    && (a.source.OwnNode? ==> id == Lightning(order.services.nodePay(a.index).value))
    && (forall b: Attempt :: b.index < |order.methods| && Precedes(order.methods, b, a) ==> !Delivers(order, b))
  }

  /** Which calls are made until then: the covered attempts up to that one, in order and once each. */
  ghost predicate CallsUntil(order: Order, calls: seq<Attempt>, a: Attempt)
    requires a.index < |order.methods|
  {
    && InRange(order.methods, calls) && Ordered(order.methods, calls)
    && (forall b: Attempt :: b in calls <==>
          b.index < |order.methods| && Covers(order, b) && (b == a || Precedes(order.methods, b, a)))
  }

  /** Otherwise: all covered attempts are made, and the last error from the own node counts, else from custody. */
  ghost predicate Fails(order: Order, calls: seq<Attempt>, error: WalletError) {
    && (forall b: Attempt :: b.index < |order.methods| ==> !Delivers(order, b))
    && InRange(order.methods, calls) && Ordered(order.methods, calls)
    && (forall b: Attempt :: b in calls <==> b.index < |order.methods| && Covers(order, b))
    && (if exists a: Attempt :: a.index < |order.methods| && a.source.OwnNode? && Covers(order, a) then
          exists a :: LastCovered(order, OwnNode, a) && order.services.nodePay(a.index).Err? &&
                      error == LdkNodeFailure(order.services.nodePay(a.index).error)
        else if exists a: Attempt :: a.index < |order.methods| && a.source.Custody? && Covers(order, a) then
          exists a :: LastCovered(order, Custody, a) && order.services.custodialPay(a.index).Err? &&
                      error == CustodialFailure(order.services.custodialPay(a.index).error)
        else error == LdkNodeFailure(InsufficientFunds))
  }

  /** The attempts scheduled before one are those that precede it. */
  lemma ScheduledBefore(methods: seq<PaymentMethod>, k: nat)
    requires k < |Schedule(methods)|
    ensures InRange(methods, Schedule(methods)) && Ordered(methods, Schedule(methods)[..k])
    ensures forall b: Attempt :: b in Schedule(methods)[..k] <==>
              b.index < |methods| && Precedes(methods, b, Schedule(methods)[k])
  {
    var schedule := Schedule(methods);
    ScheduleIs(methods);
    forall b: Attempt | b.index < |methods| && Precedes(methods, b, schedule[k])
      ensures b in schedule[..k]
    {
      var j :| 0 <= j < |schedule| && schedule[j] == b;
      assert j < k;
      assert schedule[..k][j] == b;
    }
    forall b | b in schedule[..k]
      ensures b.index < |methods| && Precedes(methods, b, schedule[k])
    {
      var j :| 0 <= j < k && schedule[j] == b;
    }
  }

  lemma NoneDeliversBefore(order: Order, k: nat)
    requires FirstSuccess(order, Schedule(order.methods), k)
    ensures forall b :: b in Schedule(order.methods)[..k] ==> !Delivers(order, b)
  {
    var schedule := Schedule(order.methods);
    forall b | b in schedule[..k]
      ensures !Delivers(order, b)
    {
      var j :| 0 <= j < k && schedule[j] == b;
      VerdictExactly(order, b);
    }
  }

  lemma PlaySucceedsExactly(order: Order, k: nat)
    requires FirstSuccess(order, Schedule(order.methods), k)
    ensures var a := Schedule(order.methods)[k];
      && GoesThrough(order, a, order.VerdictOn(a).id)
      && CallsUntil(order, Tried(order, Schedule(order.methods)[..k]) + [a], a)
  {
    var schedule := Schedule(order.methods);
    var a := schedule[k];
    VerdictExactly(order, a);
    ScheduledBefore(order.methods, k);
    NoneDeliversBefore(order, k);
    TriedAre(order, schedule[..k]);
    OrderedConcat(order.methods, Tried(order, schedule[..k]), [a]);
  }

  lemma PlayFailsExactly(order: Order)
    requires NoneSucceeds(order, Schedule(order.methods))
    ensures var played := Play(order, Schedule(order.methods), NOTHING_YET);
      Fails(order, played.progress.calls, played.progress.FinalError())
  {
    var schedule := Schedule(order.methods);
    PlayIsFirstSuccess(order);
    ScheduleIs(order.methods);
    TriedAre(order, schedule);
    NodeErrorCounts(order);
    CustodialErrorCounts(order);
    forall b: Attempt | b.index < |order.methods|
      ensures !Delivers(order, b)
    {
      var j :| 0 <= j < |schedule| && schedule[j] == b;
      VerdictExactly(order, b);
    }
  }

  /** What the scheduler does, in terms of the balances and the services only. */
  lemma PlayExactly(order: Order)
    ensures var played := Play(order, Schedule(order.methods), NOTHING_YET);
      match played.paid
      case Some(paid) => GoesThrough(order, paid.0, paid.1) && CallsUntil(order, played.progress.calls, paid.0)
      case None => Fails(order, played.progress.calls, played.progress.FinalError())
  {
    PlayIsFirstSuccess(order);
    if NoneSucceeds(order, Schedule(order.methods)) {
      PlayFailsExactly(order);
    } else {
      var k := SomeFirst(order, Schedule(order.methods));
      PlaySucceedsExactly(order, k);
    }
  }

  // ----- The imperative scheduler

  function OutgoingType(m: PaymentMethod): PaymentType {
    match m
    case LightningBolt11(_) => OutgoingLightningBolt11(None)
    case LightningBolt12(_) => OutgoingLightningBolt12(None)
    case OnChain(_, _) => OutgoingOnChain
  }

  /** The record that a successful payment leaves. */
  function Record(order: Order, paid: (Attempt, PaymentId), now: nat): TxMetadata
    requires paid.0.index < |order.methods|
  {
    TxMetadata(now, Payment(OutgoingType(order.methods[paid.0.index])))
  }

  /** A custodial wallet that estimates no fee for anything but BOLT 11 invoices, as the one for Spark. */
  ghost predicate OnlyBolt11(order: Order) {
    forall i: nat :: i < |order.methods| && !order.methods[i].LightningBolt11? ==> order.services.custodialFee(i).None?
  }

  /** Such a wallet only ever pays those, and is recorded so. An on-chain record takes one that pays on-chain. */
  lemma CustodyPaysBolt11(order: Order, now: nat)
    ensures match Play(order, Schedule(order.methods), NOTHING_YET).paid
      case None => true
      case Some(paid) =>
        && paid.0.index < |order.methods|
        && (paid.1.Custodial? && OnlyBolt11(order) ==>
              order.methods[paid.0.index].LightningBolt11? &&
              Record(order, paid, now).ty == Payment(OutgoingLightningBolt11(None)))
        && ((paid.1.Custodial? && Record(order, paid, now).ty == Payment(OutgoingOnChain)) <==>
            (paid.0.source.Custody? && order.methods[paid.0.index].OnChain?))
  {
    PaidIsScheduled(order);
  }

  /** The payment is recorded as plain, with the type of its method and no preimage yet. */
  ghost predicate RecordsPayment(m: PaymentMethod, mem: MetadataMap, id: PaymentId, now: nat) {
    && id in mem && mem[id].time == now
    && (m.LightningBolt11? ==> mem[id].ty == Payment(OutgoingLightningBolt11(None)))
    && (m.LightningBolt12? ==> mem[id].ty == Payment(OutgoingLightningBolt12(None)))
    && (m.OnChain? ==> mem[id].ty == Payment(OutgoingOnChain))
  }

  /** One attempt: `pay_custodial` and `pay_lightning`. Only a success is recorded. */
  method Try(store: TxMetadataStore, order: Order, a: Attempt, now: nat) returns (verdict: Verdict)
    requires store.Valid() && a.index < |order.methods|
    modifies store, store.store
    ensures store.Valid() && verdict == order.VerdictOn(a)
    ensures store.State() ==
            if verdict.Succeeded? then
              old(store.State()).Set(store.codec, verdict.id, Record(order, (a, verdict.id), now))
            else old(store.State())
  {
    verdict := order.VerdictOn(a);
    if verdict.Succeeded? {
      if a.source.Custody? {
        store.Insert(verdict.id, Record(order, (a, verdict.id), now));
      } else {
        store.Upsert(verdict.id, Record(order, (a, verdict.id), now));
      }
    }
  }

  /** One of the four loops of `pay`, with the attempt that its closure makes for each method. */
  method RunPhase(store: TxMetadataStore, order: Order, source: Source, lightning: bool, before: Progress, now: nat)
    returns (played: Played)
    requires store.Valid()
    modifies store, store.store
    ensures store.Valid()
    ensures played == Play(order, Phase(order.methods, source, lightning), before)
    ensures played.paid.Some? ==> played.paid.value.0.index < |order.methods| && played.paid.value.0.source == source
    ensures store.State() ==
            if played.paid.Some? then
              old(store.State()).Set(store.codec, played.paid.value.1, Record(order, played.paid.value, now))
            else old(store.State())
  {
    var progress := before;
    for i := 0 to |order.methods|
      invariant store.Valid() && store.State() == old(store.State())
      invariant Play(order, Phase(order.methods[..i], source, lightning), before) == Played(progress, None)
    {
      PhaseStep(order.methods, i, source, lightning);
      if order.methods[i].IsLightning() == lightning {
        var a := Attempt(source, i);
        PlayOneMore(order, Phase(order.methods[..i], source, lightning), a, before);
        var verdict := Try(store, order, a, now);
        match verdict
        case NotTried =>
        case Refused(e) =>
          progress := progress.Failing(a, e);
        case Succeeded(id) =>
          PhasePrefix(order.methods, i + 1, source, lightning);
          PlayStops(order, Phase(order.methods[..i + 1], source, lightning), Phase(order.methods, source, lightning),
                    before);
          return Played(progress.(calls := progress.calls + [a]), Some((a, id)));
      }
    }
    assert order.methods[..|order.methods|] == order.methods;
    played := Played(progress, None);
  }

  lemma PhaseStep(methods: seq<PaymentMethod>, i: nat, source: Source, lightning: bool)
    requires i < |methods|
    ensures Phase(methods[..i + 1], source, lightning) ==
            if methods[i].IsLightning() == lightning then Phase(methods[..i], source, lightning) + [Attempt(source, i)]
            else Phase(methods[..i], source, lightning)
  {
    assert methods[..i + 1][..i] == methods[..i];
  }

  lemma PlayOneMore(order: Order, done: seq<Attempt>, a: Attempt, before: Progress)
    requires Play(order, done, before).paid.None?
    ensures var p := Play(order, done, before).progress;
      Play(order, done + [a], before) ==
      match order.VerdictOn(a)
      case NotTried => Played(p, None)
      case Refused(e) => Played(p.Failing(a, e), None)
      case Succeeded(id) => Played(p.(calls := p.calls + [a]), Some((a, id)))
  {
    PlayConcat(order, done, [a], before);
    assert [a][1..] == [];
  }

  lemma PlayStops(order: Order, done: seq<Attempt>, all: seq<Attempt>, before: Progress)
    requires done <= all && Play(order, done, before).paid.Some?
    ensures Play(order, all, before) == Play(order, done, before)
  {
    PlayConcat(order, done, all[|done|..], before);
    assert all == done + all[|done|..];
  }

  lemma {:induction false} PhasePrefix(methods: seq<PaymentMethod>, k: nat, source: Source, lightning: bool)
    requires k <= |methods|
    ensures Phase(methods[..k], source, lightning) <= Phase(methods, source, lightning)
    decreases |methods|
  {
    if k == |methods| {
      assert methods[..k] == methods;
    } else {
      var n := |methods| - 1;
      assert methods[..n][..k] == methods[..k];
      PhasePrefix(methods[..n], k, source, lightning);
    }
  }

  /** What `pay` answers, calls, queues and records, in terms of the balances and the services only. */
  ghost predicate PaysExactly(order: Order, r: Result<PaymentId, WalletError>, calls: seq<Attempt>,
                              queued: Option<PaymentId>, mem: MetadataMap, now: nat)
  {
    match r
    case Ok(id) =>
      exists a :: GoesThrough(order, a, id) && CallsUntil(order, calls, a) &&
                  queued == (if a.source.OwnNode? then Some(id) else None) &&
                  RecordsPayment(order.methods[a.index], mem, id, now)
    case Err(e) => Fails(order, calls, e) && queued == None
  }

  lemma PaidExactly(order: Order, a: Attempt, id: PaymentId, now: nat, mem: MetadataMap)
    requires Play(order, Schedule(order.methods), NOTHING_YET).paid == Some((a, id))
    requires a.index < |order.methods| && id in mem && mem[id] == Record(order, (a, id), now)
    ensures PaysExactly(order, Ok(id), Play(order, Schedule(order.methods), NOTHING_YET).progress.calls,
                        if a.source.OwnNode? then Some(id) else None, mem, now)
  {
    PlayExactly(order);
    assert GoesThrough(order, a, id);
  }

  /** The four phases in turn. */
  method RunSchedule(store: TxMetadataStore, order: Order, now: nat) returns (played: Played)
    requires store.Valid()
    modifies store, store.store
    ensures store.Valid() && played == Play(order, Schedule(order.methods), NOTHING_YET)
    ensures played.paid.Some? ==> played.paid.value.0.index < |order.methods|
    ensures store.State() ==
            if played.paid.Some? then
              old(store.State()).Set(store.codec, played.paid.value.1, Record(order, played.paid.value, now))
            else old(store.State())
  {
    PlaySchedule(order);
    // first the custodial balance over lightning
    played := RunPhase(store, order, Custody, true, NOTHING_YET, now);
    if played.paid.None? {
      // then the wallet's own balance over lightning, which custody can top up in the background
      played := RunPhase(store, order, OwnNode, true, played.progress, now);
    }
    if played.paid.None? {
      // finally on-chain, from custody
      played := RunPhase(store, order, Custody, false, played.progress, now);
    }
    if played.paid.None? {
      // and from the wallet's own node
      played := RunPhase(store, order, OwnNode, false, played.progress, now);
    }
  }

  /**
   * `pay`: the four phases in turn. A success writes exactly one record, and one from the wallet's own
   * node queues a rebalance that is charged to it; a failure writes nothing.
   */
  method PayOrder(store: TxMetadataStore, order: Order, now: nat)
    returns (r: Result<PaymentId, WalletError>, calls: seq<Attempt>, queued: Option<PaymentId>)
    requires store.Valid()
    modifies store, store.store
    ensures store.Valid()
    ensures calls == Play(order, Schedule(order.methods), NOTHING_YET).progress.calls
    ensures match Play(order, Schedule(order.methods), NOTHING_YET).paid
      case Some(paid) =>
        && paid.0.index < |order.methods|
        && r == Ok(paid.1)
        && queued == (if paid.0.source.OwnNode? then Some(paid.1) else None)
        && store.State() == old(store.State()).Set(store.codec, paid.1, Record(order, paid, now))
      case None =>
        && r == Err(Play(order, Schedule(order.methods), NOTHING_YET).progress.FinalError())
        && queued == None
        && store.State() == old(store.State())
    ensures PaysExactly(order, r, calls, queued, store.txMetadata, now)
  {
    var played := RunSchedule(store, order, now);
    calls := played.progress.calls;
    if played.paid.Some? {
      var (a, id) := played.paid.value;
      r, queued := Ok(id), if a.source.OwnNode? then Some(id) else None;
      PaidExactly(order, a, id, now, store.txMetadata);
    } else {
      r, queued := Err(played.progress.FinalError()), None;
      PlayExactly(order);
    }
  }

  /** The schedule is played phase by phase. */
  lemma PlaySchedule(order: Order)
    ensures var p1 := Play(order, Phase(order.methods, Custody, true), NOTHING_YET);
      var p2 := if p1.paid.Some? then p1 else Play(order, Phase(order.methods, OwnNode, true), p1.progress);
      var p3 := if p2.paid.Some? then p2 else Play(order, Phase(order.methods, Custody, false), p2.progress);
      var p4 := if p3.paid.Some? then p3 else Play(order, Phase(order.methods, OwnNode, false), p3.progress);
      Play(order, Schedule(order.methods), NOTHING_YET) == p4
  {
    var a, b := Phase(order.methods, Custody, true), Phase(order.methods, OwnNode, true);
    var c, d := Phase(order.methods, Custody, false), Phase(order.methods, OwnNode, false);
    PlayConcat(order, a, b, NOTHING_YET);
    PlayConcat(order, a + b, c, NOTHING_YET);
    PlayConcat(order, a + b + c, d, NOTHING_YET);
  }
}
