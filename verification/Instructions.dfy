/** Payment methods, parsed instructions, and the amounts they ask for. */
module Instructions {
  import opened Wrappers
  import opened Amounts

  datatype Network = Bitcoin | Testnet | Signet | Regtest

  /** What the external parsers report about an address, a BOLT 11 invoice and a BOLT 12 offer. */
  datatype Address = Address(text: string, networks: set<Network>)

  datatype Invoice = Invoice(text: string, network: Network, amountMsats: Option<U64>, description: Option<string>)

  datatype OfferAmount = InBitcoin(msats: U64) | InCurrency

  datatype Offer = Offer(text: string, networks: set<Network>, amount: Option<OfferAmount>, description: Option<string>)

  datatype PaymentMethod =
    | LightningBolt11(invoice: Invoice)
    | LightningBolt12(offer: Offer)
    | OnChain(required: Option<Amount>, address: Address)
  {
    predicate IsLightning() {
      !OnChain?
    }

    /** `PaymentMethod::amount`: an offer in another currency has none. */
    function RequiredAmount(): Option<Amount> {
      match this
      case LightningBolt11(invoice) =>
        (match invoice.amountMsats case Some(a) => Some(Amount(a)) case None => None)
      case LightningBolt12(offer) =>
        (match offer.amount
         case Some(InBitcoin(msats)) => Some(Amount(msats))
         case Some(InCurrency) => None
         case None => None)
      case OnChain(required, _) => required
    }
  }

  datatype PaymentInstructions = PaymentInstructions(
    recipientDescription: Option<string>,
    methods: seq<PaymentMethod>,
    popCallback: Option<string>,
    hrn: Option<string>,
    hrnProof: Option<string>)
  {
    function LnPaymentAmount(): Option<Amount> {
      FirstAmount(methods, true)
    }

    function OnChainPaymentAmount(): Option<Amount> {
      FirstAmount(methods, false)
    }

    /** `max_amount`: one pass that keeps the largest amount seen. */
    method MaxAmount() returns (max: Option<Amount>)
      ensures max == LargestAmount(methods)
    {
      max := None;
      for i := 0 to |methods|
        invariant max == LargestAmount(methods[..i])
      {
        assert methods[..i + 1][..i] == methods[..i];
        var amount := methods[i].RequiredAmount();
        if amount.Some? {
          if max.None? || max.value.msats < amount.value.msats {
            max := amount;
          }
        }
      }
      assert methods[..|methods|] == methods;
    }
  }

  /** The amount of the first method that is paid over lightning, or of the first that is not. */
  function FirstAmount(methods: seq<PaymentMethod>, lightning: bool): Option<Amount> {
    if methods == [] then None
    else if methods[0].IsLightning() == lightning then methods[0].RequiredAmount()
    else FirstAmount(methods[1..], lightning)
  }

  function LargestAmount(methods: seq<PaymentMethod>): Option<Amount> {
    if methods == [] then None
    else
      var before := LargestAmount(methods[..|methods| - 1]);
      var amount := methods[|methods| - 1].RequiredAmount();
      if amount.Some? && (before.None? || before.value.msats < amount.value.msats) then amount else before
  }

  lemma {:induction false} FirstAmountIs(methods: seq<PaymentMethod>, lightning: bool)
    ensures (forall m :: m in methods ==> m.IsLightning() != lightning) ==>
            FirstAmount(methods, lightning) == None
    ensures (exists m :: m in methods && m.IsLightning() == lightning) ==>
            exists m :: m in methods && m.IsLightning() == lightning &&
                        m.RequiredAmount() == FirstAmount(methods, lightning)
  {
    if methods != [] && methods[0].IsLightning() != lightning {
      FirstAmountIs(methods[1..], lightning);
      assert forall m :: m in methods ==> m == methods[0] || m in methods[1..];
    } else if methods != [] {
      assert methods[0] in methods;
    }
  }

  /** It is the first such method whose amount counts. */
  lemma {:induction false} FirstAmountFirst(methods: seq<PaymentMethod>, lightning: bool, k: nat)
    requires k < |methods| && methods[k].IsLightning() == lightning
    requires forall j :: 0 <= j < k ==> methods[j].IsLightning() != lightning
    ensures FirstAmount(methods, lightning) == methods[k].RequiredAmount()
  {
    if k > 0 {
      assert forall j :: 0 <= j < k - 1 ==> methods[1..][j] == methods[j + 1];
      FirstAmountFirst(methods[1..], lightning, k - 1);
    }
  }

  lemma {:induction false} LargestAmountIs(methods: seq<PaymentMethod>)
    ensures LargestAmount(methods).None? <==> forall m :: m in methods ==> m.RequiredAmount().None?
    ensures LargestAmount(methods).Some? ==>
            (exists m :: m in methods && m.RequiredAmount() == LargestAmount(methods)) &&
            (forall m :: m in methods && m.RequiredAmount().Some? ==>
              m.RequiredAmount().value.msats <= LargestAmount(methods).value.msats)
  {
    if methods == [] {
    } else {
      var n := |methods| - 1;
      LargestAmountIs(methods[..n]);
      assert methods == methods[..n] + [methods[n]];
      assert methods[n] in methods;
    }
  }

  // ----- Consistency of the amounts

  /** The largest difference allowed between two methods: 100 satoshis. */
  const MAX_AMOUNT_DIFFERENCE: Amount := FromSats(100)

  ghost predicate Bounded(methods: seq<PaymentMethod>) {
    forall m :: m in methods && m.RequiredAmount().Some? ==>
      m.RequiredAmount().value.msats <= 21_000_000 * 100_000_000 * 1000
  }

  ghost predicate AllOrNone(methods: seq<PaymentMethod>) {
    forall m, n :: m in methods && n in methods && m.RequiredAmount().Some? ==> n.RequiredAmount().Some?
  }

  ghost predicate SameLightning(methods: seq<PaymentMethod>) {
    forall m, n :: m in methods && n in methods && m.IsLightning() && n.IsLightning() ==>
      m.RequiredAmount().Some? && n.RequiredAmount().Some? ==> m.RequiredAmount() == n.RequiredAmount()
  }

  ghost predicate Close(methods: seq<PaymentMethod>) {
    forall m, n :: m in methods && n in methods && m.RequiredAmount().Some? && n.RequiredAmount().Some? ==>
      m.RequiredAmount().value.msats - n.RequiredAmount().value.msats <= 100 * 1000
  }

  /** What each kind of method asks for: the invoice's amount, the offer's if it is in bitcoin, or the URI's. */
  lemma AskedFor(m: PaymentMethod)
    ensures m.LightningBolt11? ==>
              && (m.invoice.amountMsats.None? ==> m.RequiredAmount().None?)
              && (forall a :: m.invoice.amountMsats == Some(a) ==> m.RequiredAmount() == Some(Amount(a)))
    ensures m.LightningBolt12? ==>
              && (m.offer.amount.None? || m.offer.amount == Some(InCurrency) ==> m.RequiredAmount().None?)
              && (forall a :: m.offer.amount == Some(InBitcoin(a)) ==> m.RequiredAmount() == Some(Amount(a)))
    ensures m.OnChain? ==> m.RequiredAmount() == m.required
  {
  }

  /** What any parsed list of methods promises about its amounts. */
  ghost predicate Agreeing(methods: seq<PaymentMethod>) {
    AllOrNone(methods) && SameLightning(methods) && Close(methods)
  }

  /** What a BIP 321 query must satisfy on top: nobody asks for more than 21 million bitcoin. */
  ghost predicate Consistent(methods: seq<PaymentMethod>) {
    Bounded(methods) && Agreeing(methods)
  }

  datatype AmountError = TooLarge | DifferentLightningAmounts | SomeWithoutAmount | TooFarApart

  function SmallestMsats(methods: seq<PaymentMethod>): (least: int)
    ensures least <= MAX_MSATS
  {
    if methods == [] then MAX_MSATS
    else
      var before := SmallestMsats(methods[..|methods| - 1]);
      var amount := methods[|methods| - 1].RequiredAmount();
      if amount.Some? && amount.value.msats < before then amount.value.msats else before
  }

  function LargestMsats(methods: seq<PaymentMethod>): (most: int)
    ensures most >= 0
  {
    if methods == [] then 0
    else
      var before := LargestMsats(methods[..|methods| - 1]);
      var amount := methods[|methods| - 1].RequiredAmount();
      if amount.Some? && amount.value.msats > before then amount.value.msats else before
  }

  function LastLightningAmount(methods: seq<PaymentMethod>): Option<Amount> {
    if methods == [] then None
    else
      var last := methods[|methods| - 1];
      if last.IsLightning() && last.RequiredAmount().Some? then last.RequiredAmount()
      else LastLightningAmount(methods[..|methods| - 1])
  }

  /** The first method at which the pass over the amounts gives up, and why. */
  function PassError(methods: seq<PaymentMethod>): Option<AmountError> {
    if methods == [] then None
    else
      var before := methods[..|methods| - 1];
      var last := methods[|methods| - 1];
      if PassError(before).Some? then PassError(before)
      else if last.RequiredAmount().None? then None
      else if last.RequiredAmount().value.msats > MAX_MSATS then Some(TooLarge)
      else if last.IsLightning() && LastLightningAmount(before).Some?
           && LastLightningAmount(before) != last.RequiredAmount() then Some(DifferentLightningAmounts)
      else None
  }

  predicate SomeAmountless(methods: seq<PaymentMethod>) {
    methods != [] &&
    (SomeAmountless(methods[..|methods| - 1]) || methods[|methods| - 1].RequiredAmount().None?)
  }

  /** The verdict of the validator, with the same sentinel values as the source. */
  function AmountVerdict(methods: seq<PaymentMethod>): Option<AmountError> {
    if PassError(methods).Some? then PassError(methods)
    else if (SmallestMsats(methods) != MAX_MSATS || LargestMsats(methods) != 0) && SomeAmountless(methods) then
      Some(SomeWithoutAmount)
    else if LargestMsats(methods) - SmallestMsats(methods) > MAX_AMOUNT_DIFFERENCE.msats then Some(TooFarApart)
    else None
  }

  /** The one-pass amount validator of `parse_resolved_instructions`. */
  method CheckAmounts(methods: seq<PaymentMethod>) returns (error: Option<AmountError>)
    ensures error == AmountVerdict(methods)
  {
    var minMsats: int, maxMsats: int := MAX_MSATS, 0;
    var lnMsats: Option<int> := None;
    var haveAmountless := false;
    for i := 0 to |methods|
      invariant PassError(methods[..i]).None?
      invariant minMsats == SmallestMsats(methods[..i]) && maxMsats == LargestMsats(methods[..i])
      invariant lnMsats == match LastLightningAmount(methods[..i]) case Some(a) => Some(a.msats) case None => None
      invariant haveAmountless <==> SomeAmountless(methods[..i])
    {
      var current := methods[i];
      assert methods[..i + 1][..i] == methods[..i];
      if current.RequiredAmount().Some? {
        var msats := current.RequiredAmount().value.msats;
        if msats > MAX_MSATS {
          PassErrorStays(methods, i + 1);
          return Some(TooLarge);
        }
        if msats < minMsats {
          minMsats := msats;
        }
        if msats > maxMsats {
          maxMsats := msats;
        }
        if current.IsLightning() {
          if lnMsats.Some? && lnMsats.value != msats {
            PassErrorStays(methods, i + 1);
            return Some(DifferentLightningAmounts);
          }
          lnMsats := Some(msats);
        }
      } else {
        haveAmountless := true;
      }
    }
    assert methods[..|methods|] == methods;
    if (minMsats != MAX_MSATS || maxMsats != 0) && haveAmountless {
      return Some(SomeWithoutAmount);
    }
    var difference := if maxMsats < minMsats then 0 else maxMsats - minMsats;
    if difference > MAX_AMOUNT_DIFFERENCE.msats {
      return Some(TooFarApart);
    }
    return None;
  }

  lemma {:induction false} PassErrorStays(methods: seq<PaymentMethod>, k: nat)
    requires k <= |methods| && PassError(methods[..k]).Some?
    ensures PassError(methods) == PassError(methods[..k])
    decreases |methods|
  {
    if k == |methods| {
      assert methods[..k] == methods;
    } else {
      var before := methods[..|methods| - 1];
      assert before[..k] == methods[..k];
      PassErrorStays(before, k);
    }
  }

  // ----- The validator decides consistency

  lemma {:induction false} ExtremesBound(methods: seq<PaymentMethod>)
    ensures forall m :: m in methods && m.RequiredAmount().Some? ==>
              SmallestMsats(methods) <= m.RequiredAmount().value.msats <= LargestMsats(methods)
    ensures SmallestMsats(methods) == MAX_MSATS ||
            exists m :: m in methods && m.RequiredAmount().Some? &&
                        m.RequiredAmount().value.msats == SmallestMsats(methods)
    ensures LargestMsats(methods) == 0 ||
            exists m :: m in methods && m.RequiredAmount().Some? &&
                        m.RequiredAmount().value.msats == LargestMsats(methods)
  {
    if methods == [] {
    } else {
      var n := |methods| - 1;
      ExtremesBound(methods[..n]);
      assert methods == methods[..n] + [methods[n]];
      assert methods[n] in methods;
    }
  }

  lemma {:induction false} LastLightningAmountIs(methods: seq<PaymentMethod>)
    ensures LastLightningAmount(methods).Some? ==>
            exists m :: m in methods && m.IsLightning() && m.RequiredAmount() == LastLightningAmount(methods)
    ensures LastLightningAmount(methods).None? ==>
            forall m :: m in methods && m.IsLightning() ==> m.RequiredAmount().None?
  {
    if methods == [] {
    } else {
      var n := |methods| - 1;
      LastLightningAmountIs(methods[..n]);
      assert methods == methods[..n] + [methods[n]];
      assert methods[n] in methods;
    }
  }

  lemma {:induction false} PassErrorIs(methods: seq<PaymentMethod>)
    ensures PassError(methods).None? <==> Bounded(methods) && SameLightning(methods)
  {
    if methods == [] {
    } else {
      var n := |methods| - 1;
      PassErrorIs(methods[..n]);
      LastLightningAmountIs(methods[..n]);
      assert methods == methods[..n] + [methods[n]];
      assert methods[n] in methods;
      assert forall m :: m in methods[..n] ==> m in methods;
    }
  }

  lemma {:induction false} SomeAmountlessIs(methods: seq<PaymentMethod>)
    ensures SomeAmountless(methods) <==> exists m :: m in methods && m.RequiredAmount().None?
  {
    if methods == [] {
    } else {
      var n := |methods| - 1;
      SomeAmountlessIs(methods[..n]);
      assert methods == methods[..n] + [methods[n]];
      assert methods[n] in methods;
    }
  }

  /** The sentinel test means what it is used for: some amount was seen, even if it is 0 or 21 million BTC. */
  lemma SentinelExact(methods: seq<PaymentMethod>)
    requires Bounded(methods)
    ensures SmallestMsats(methods) != MAX_MSATS || LargestMsats(methods) != 0 <==>
            exists m :: m in methods && m.RequiredAmount().Some?
  {
    ExtremesBound(methods);
  }

  lemma ExtremesAttained(methods: seq<PaymentMethod>)
    requires Bounded(methods)
    requires exists m :: m in methods && m.RequiredAmount().Some?
    ensures exists m :: m in methods && m.RequiredAmount().Some? &&
                        m.RequiredAmount().value.msats == SmallestMsats(methods)
    ensures exists m :: m in methods && m.RequiredAmount().Some? &&
                        m.RequiredAmount().value.msats == LargestMsats(methods)
  {
    ExtremesBound(methods);
    var m :| m in methods && m.RequiredAmount().Some?;
  }

  lemma SpreadMeans(methods: seq<PaymentMethod>)
    requires Bounded(methods)
    ensures LargestMsats(methods) - SmallestMsats(methods) <= MAX_AMOUNT_DIFFERENCE.msats <==> Close(methods)
  {
    ExtremesBound(methods);
    if m :| m in methods && m.RequiredAmount().Some? {
      ExtremesAttained(methods);
    }
  }

  /** The validator accepts exactly the consistent lists. */
  lemma VerdictIsConsistency(methods: seq<PaymentMethod>)
    ensures AmountVerdict(methods).None? <==> Consistent(methods)
  {
    PassErrorIs(methods);
    if Bounded(methods) {
      SentinelExact(methods);
      SpreadMeans(methods);
      SomeAmountlessIs(methods);
    }
  }

  /** The method at `k` is the first one to ask for more than there is, or for another amount over lightning. */
  ghost predicate FirstOffender(methods: seq<PaymentMethod>, k: nat) {
    k < |methods| && Bounded(methods[..k]) && SameLightning(methods[..k]) && methods[k].RequiredAmount().Some? &&
    !(Bounded(methods[..k + 1]) && SameLightning(methods[..k + 1]))
  }

  lemma OffenderInPrefix(methods: seq<PaymentMethod>, k: nat, n: nat)
    requires k < n <= |methods|
    ensures FirstOffender(methods[..n], k) <==> FirstOffender(methods, k)
  {
    assert methods[..n][..k] == methods[..k] && methods[..n][..k + 1] == methods[..k + 1];
  }

  /** The first offender decides how the pass ends. */
  lemma {:induction false} PassErrorAt(methods: seq<PaymentMethod>, k: nat)
    requires FirstOffender(methods, k)
    ensures PassError(methods) ==
            Some(if methods[k].RequiredAmount().value.msats > MAX_MSATS then TooLarge else DifferentLightningAmounts)
  {
    var n := |methods| - 1;
    if k < n {
      OffenderInPrefix(methods, k, n);
      PassErrorAt(methods[..n], k);
    } else {
      assert methods[..n + 1] == methods;
      PassErrorIs(methods[..n]);
      PassErrorIs(methods);
    }
  }

  lemma {:induction false} SomeOffender(methods: seq<PaymentMethod>) returns (k: nat)
    requires PassError(methods).Some?
    ensures FirstOffender(methods, k)
  {
    var n := |methods| - 1;
    if PassError(methods[..n]).Some? {
      k := SomeOffender(methods[..n]);
      OffenderInPrefix(methods, k, n);
    } else {
      k := n;
      assert methods[..n + 1] == methods;
      PassErrorIs(methods[..n]);
      PassErrorIs(methods);
    }
  }

  lemma PassErrorExactly(methods: seq<PaymentMethod>)
    ensures PassError(methods) == Some(TooLarge) <==>
            exists k: nat :: FirstOffender(methods, k) && methods[k].RequiredAmount().value.msats > MAX_MSATS
    ensures PassError(methods) == Some(DifferentLightningAmounts) <==>
            exists k: nat :: FirstOffender(methods, k) && methods[k].RequiredAmount().value.msats <= MAX_MSATS
    ensures PassError(methods) in {None, Some(TooLarge), Some(DifferentLightningAmounts)}
  {
    forall k: nat | FirstOffender(methods, k)
      ensures PassError(methods) ==
              Some(if methods[k].RequiredAmount().value.msats > MAX_MSATS then TooLarge else DifferentLightningAmounts)
    {
      PassErrorAt(methods, k);
    }
    if PassError(methods).Some? {
      var k := SomeOffender(methods);
    }
  }

  /** Which error is reported: the first offender's, else that some have no amount, else that they are too far apart. */
  lemma VerdictErrors(methods: seq<PaymentMethod>)
    ensures AmountVerdict(methods) == Some(TooLarge) <==>
            exists k: nat :: FirstOffender(methods, k) && methods[k].RequiredAmount().value.msats > MAX_MSATS
    ensures AmountVerdict(methods) == Some(DifferentLightningAmounts) <==>
            exists k: nat :: FirstOffender(methods, k) && methods[k].RequiredAmount().value.msats <= MAX_MSATS
    ensures AmountVerdict(methods) == Some(SomeWithoutAmount) <==>
            Bounded(methods) && SameLightning(methods) && !AllOrNone(methods)
    ensures AmountVerdict(methods) == Some(TooFarApart) <==>
            Bounded(methods) && SameLightning(methods) && AllOrNone(methods) && !Close(methods)
  {
    PassErrorIs(methods);
    PassErrorExactly(methods);
    if Bounded(methods) {
      SentinelExact(methods);
      SpreadMeans(methods);
      SomeAmountlessIs(methods);
    }
  }

  /** The verdict does not depend on the order in which the methods were listed. */
  lemma VerdictOrderFree(methods: seq<PaymentMethod>, shuffled: seq<PaymentMethod>)
    requires multiset(methods) == multiset(shuffled)
    ensures AmountVerdict(methods).None? <==> AmountVerdict(shuffled).None?
  {
    VerdictIsConsistency(methods);
    VerdictIsConsistency(shuffled);
    assert forall m :: m in methods <==> m in multiset(methods);
    assert forall m :: m in shuffled <==> m in multiset(shuffled);
  }

  // ----- What the accessors may rely on

  /** What every parsed `PaymentInstructions` satisfies, whatever the input form. */
  ghost predicate WellFormed(instructions: PaymentInstructions) {
    && instructions.methods != []
    && Agreeing(instructions.methods)
    && (forall m, n :: m in instructions.methods && n in instructions.methods && m.OnChain? && n.OnChain? ==>
          m.RequiredAmount() == n.RequiredAmount())
  }

  lemma AccessorsAgree(instructions: PaymentInstructions)
    requires WellFormed(instructions)
    ensures forall m :: m in instructions.methods ==>
              m.RequiredAmount() == (if m.IsLightning() then instructions.LnPaymentAmount()
                                     else instructions.OnChainPaymentAmount())
    ensures LargestAmount(instructions.methods).None? <==>
            forall m :: m in instructions.methods ==> m.RequiredAmount().None?
    ensures LargestAmount(instructions.methods).Some? ==>
            forall m :: m in instructions.methods ==>
              m.RequiredAmount().Some? &&
              0 <= LargestAmount(instructions.methods).value.msats - m.RequiredAmount().value.msats
                <= MAX_AMOUNT_DIFFERENCE.msats
  {
    var methods := instructions.methods;
    FirstAmountIs(methods, true);
    FirstAmountIs(methods, false);
    LargestAmountIs(methods);
  }

  /** `PaymentInfo::set_amount`. */
  function SetAmount(instructions: PaymentInstructions, amount: Amount): Result<(PaymentInstructions, Amount), ()> {
    var ln := instructions.LnPaymentAmount();
    var onChain := instructions.OnChainPaymentAmount();
    if (ln.Some? || onChain.Some?) && ln != Some(amount) && onChain != Some(amount) then Err(())
    else Ok((instructions, amount))
  }

  /** An amount can be set exactly when nothing is asked for or some method asks for just that amount. */
  lemma SetAmountSucceeds(instructions: PaymentInstructions, amount: Amount)
    requires WellFormed(instructions)
    ensures SetAmount(instructions, amount).Ok? <==>
            (forall m :: m in instructions.methods ==> m.RequiredAmount().None?) ||
            (exists m :: m in instructions.methods && m.RequiredAmount() == Some(amount))
    ensures SetAmount(instructions, amount).Ok? ==> SetAmount(instructions, amount).value == (instructions, amount)
    ensures SetAmount(instructions, amount).Ok? ==>
            forall m :: m in instructions.methods && m.RequiredAmount().Some? ==>
              && m.RequiredAmount().value.msats - amount.msats <= MAX_AMOUNT_DIFFERENCE.msats
              && amount.msats - m.RequiredAmount().value.msats <= MAX_AMOUNT_DIFFERENCE.msats
  {
    AccessorsAgree(instructions);
    FirstAmountIs(instructions.methods, true);
    FirstAmountIs(instructions.methods, false);
  }
}
