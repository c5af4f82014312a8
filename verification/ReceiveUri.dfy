/** The wallet's own receive URIs (`get_single_use_receive_uri`), and how they parse back. */
module ReceiveUri {
  import opened Wrappers
  import opened Amounts
  import opened Text
  import opened BtcDecimal
  import opened Digits
  import opened Instructions
  import opened Parser
  import opened Bip321
  import opened Config

  /** The URI before it is turned to upper case; no address means that on-chain payment is not offered. */
  function DraftUri(address: Option<Address>, amount: Option<Amount>, invoice: Invoice): string
    requires amount.Some? ==> amount.value.msats + 999 <= U64_MAX
  {
    var start := match address
      case None => "BITCOIN:" + "?"
      case Some(a) =>
        if amount.None? then "BITCOIN:" + a.text + "?"
        else "BITCOIN:" + a.text + ("?AMOUNT=" + Format(amount.value.SatsRoundingUp()) + "&");
    start + "LIGHTNING=" + invoice.text
  }

  function ReceiveText(address: Option<Address>, amount: Option<Amount>, invoice: Invoice): string
    requires amount.Some? ==> amount.value.msats + 999 <= U64_MAX
  {
    ToUpper(DraftUri(address, amount, invoice))
  }

  predicate OffersOnChain(tunables: Tunables, amount: Option<Amount>) {
    match amount
    case Some(a) => tunables.onChainReceiveThreshold.msats <= a.msats
    case None => tunables.enableAmountlessReceiveOnChain
  }

  /** With the defaults, an address is offered for 10,000 satoshis and more, and where no amount is asked for. */
  lemma DefaultOffers(amount: Option<Amount>)
    ensures OffersOnChain(DEFAULT_TUNABLES, amount) <==> (amount.Some? ==> amount.value.msats >= 10_000_000)
  {
  }

  /** Small enough to keep in custody, and more than the lightning wallet is sure to receive. */
  predicate UsesCustody(tunables: Tunables, amount: Option<Amount>, estimate: Amount) {
    match amount
    case Some(a) =>
      a.msats <= tunables.custodialBalanceLimit.msats && a.msats + tunables.rebalanceMin.msats >= estimate.msats
    case None => true
  }

  /** The URI that is handed out, if both services deliver what is asked of them. */
  function ReceiveOutcome(tunables: Tunables, amount: Option<Amount>, estimate: Amount, custodial: Option<Invoice>,
                          lightning: Option<Invoice>, newAddress: Option<Address>): Option<string>
    requires amount.Some? ==> amount.value.msats + 999 <= U64_MAX
  {
    var invoice := ChosenInvoice(tunables, amount, estimate, custodial, lightning);
    if invoice.None? then None
    else if !OffersOnChain(tunables, amount) then Some(ReceiveText(None, amount, invoice.value))
    else if newAddress.None? then None
    else Some(ReceiveText(newAddress, amount, invoice.value))
  }

  /**
   * `get_single_use_receive_uri`. The invoices, the address and the receivable estimate come from the
   * two wallets; any of them may fail.
   */
  method GetSingleUseReceiveUri(tunables: Tunables, amount: Option<Amount>, estimate: Amount,
                                custodial: Option<Invoice>, lightning: Option<Invoice>, newAddress: Option<Address>)
    returns (uri: Option<string>)
    requires amount.Some? ==> amount.value.msats + 999 <= U64_MAX
    ensures uri == ReceiveOutcome(tunables, amount, estimate, custodial, lightning, newAddress)
    ensures HandsOut(tunables, amount, estimate, custodial, lightning, newAddress, uri)
    ensures uri.Some? ==> forall c, network ::
              Delivers(c, network, tunables, amount, estimate, custodial, lightning, newAddress) ==>
              ParsesBack(c, network, uri.value, WantsAddress(tunables, amount), amount)
  {
    var invoice, enableOnChain := custodial, tunables.enableAmountlessReceiveOnChain;
    if amount.Some? {
      enableOnChain := amount.value.msats >= tunables.onChainReceiveThreshold.msats;
      var receivable := estimate.SaturatingSub(tunables.rebalanceMin);
      var useCustodial := amount.value.msats <= tunables.custodialBalanceLimit.msats &&
                          amount.value.msats >= receivable.msats;
      invoice := if useCustodial then custodial else lightning;
    }
    if invoice.None? || (enableOnChain && newAddress.None?) {
      return None;
    }
    var text := "BITCOIN:";
    if enableOnChain {
      text := text + newAddress.value.text;
      if amount.Some? {
        var printed := FormatAmount(amount.value);
        text := text + ("?AMOUNT=" + printed + "&");
      } else {
        text := text + "?";
      }
    } else {
      text := text + "?";
    }
    text := text + "LIGHTNING=" + invoice.value.text;
    uri := Some(ToUpper(text));
    forall c, network | Delivers(c, network, tunables, amount, estimate, custodial, lightning, newAddress)
      ensures ParsesBack(c, network, uri.value, WantsAddress(tunables, amount), amount)
    {
      HandedOutUriParses(c, network, tunables, amount, estimate, custodial, lightning, newAddress);
    }
  }

  // ----- The codecs that the round trip relies on

  /** Both texts survive upper-casing, contain no delimiter, and are for the right network. */
  ghost predicate ReadsBack(c: Codecs, network: Network, address: Option<Address>, invoice: Invoice) {
    && (address.Some? ==>
        var text := ToUpper(address.value.text);
        text != [] && '?' !in text && c.address(text) == address && network in address.value.networks)
    && '&' !in ToUpper(invoice.text)
    && c.bolt11(ToUpper(invoice.text)) == Some(invoice)
    && invoice.network == network
  }

  /** The amount parser reads plain numerals of up to 21 million bitcoin. */
  ghost predicate ReadsNumerals(c: Codecs) {
    forall s :: ReadDecimal(s).Some? && Canonical(s) && ReadDecimal(s).value * 1000 <= MAX_MSATS ==>
      c.btc(s) == ReadDecimal(s)
  }

  /** A service asked for `amount` may invoice exactly that, or the next whole satoshi. */
  predicate InvoicesFor(invoice: Invoice, amount: Amount)
    requires amount.msats <= MAX_MSATS
  {
    invoice.amountMsats == Some(amount.msats) || invoice.amountMsats == Some(amount.SatsRoundingUp() * 1000)
  }

  // ----- Reading the parameters

  lemma LightningKeyRead()
    ensures KeyOf("LIGHTNING") == Lightning
  {
    assert LowerChar("LIGHTNING"[0]) != LowerChar("req-label"[0]);
    assert EqIgnoreCase("LIGHTNING", "lightning");
  }

  lemma AmountParameterSplits(sats: nat)
    ensures var p := "AMOUNT=" + Format(sats);
      ParamKey(p) == AmountKey && ParamValue(p) == Some(Format(sats)) && '&' !in p
  {
    AmountKeyRead();
    assert "AMOUNT=" + Format(sats) == "AMOUNT" + ['='] + Format(sats);
    SplitOnceAt("AMOUNT", '=', Format(sats));
    FormatAlphabet(sats);
  }

  /** The amount parameter matters in the second pass only. */
  lemma AmountParameter(c: Codecs, network: Network, supportsPop: bool, sats: nat)
    requires ReadsNumerals(c) && sats * 1000 <= MAX_MSATS
    ensures var params := ["AMOUNT=" + Format(sats)];
      Effects(c, network, supportsPop, params) == [Skip] && ExtraList(c, params) == [AmountIs(Amount(sats * 1000))]
  {
    var p := "AMOUNT=" + Format(sats);
    AmountParameterSplits(sats);
    FormatExact(sats);
    FromSatsExact(sats);
    assert EffectOf(c, network, supportsPop, p) == Skip;
    assert ExtraOf(c, p) == AmountIs(Amount(sats * 1000));
  }

  /** The lightning parameter matters in the first pass only. */
  lemma LightningParameter(c: Codecs, network: Network, supportsPop: bool, invoice: Invoice)
    requires c.bolt11(ToUpper(invoice.text)) == Some(invoice) && invoice.network == network
    ensures var params := ["LIGHTNING=" + ToUpper(invoice.text)];
      Effects(c, network, supportsPop, params) == [Add(LightningBolt11(invoice), invoice.description)] &&
      ExtraList(c, params) == [Nothing]
  {
    var p := "LIGHTNING=" + ToUpper(invoice.text);
    LightningKeyRead();
    assert p == "LIGHTNING" + ['='] + ToUpper(invoice.text);
    SplitOnceAt("LIGHTNING", '=', ToUpper(invoice.text));
    assert EffectOf(c, network, supportsPop, p) == Add(LightningBolt11(invoice), invoice.description);
    assert ExtraOf(c, p) == Nothing;
  }

  // ----- The text, taken apart

  function Parameters(address: Option<Address>, amount: Option<Amount>, invoice: Invoice): seq<string>
    requires amount.Some? ==> amount.value.msats + 999 <= U64_MAX
  {
    (if address.Some? && amount.Some? then ["AMOUNT=" + Format(amount.value.SatsRoundingUp())] else []) +
    ["LIGHTNING=" + ToUpper(invoice.text)]
  }

  function UriBody(address: Option<Address>): string {
    if address.Some? then ToUpper(address.value.text) else ""
  }

  lemma ReceiveTextShape(address: Option<Address>, amount: Option<Amount>, invoice: Invoice)
    requires amount.Some? ==> amount.value.msats + 999 <= U64_MAX
    ensures ReceiveText(address, amount, invoice) ==
            UriText("BITCOIN:", UriBody(address), Parameters(address, amount, invoice))
  {
    if address.Some? && amount.Some? {
      FullTextShape(address.value, amount.value, invoice);
    } else {
      ShortTextShape(address, amount, invoice);
    }
  }

  /** Upper-casing leaves the fixed parts as they are. */
  lemma UpperAssembly(prefix: string, text: string, mark: string, tail: string)
    requires ToUpper(prefix) == prefix && ToUpper(mark) == mark
    ensures ToUpper(prefix + text + mark + tail) == prefix + ToUpper(text) + mark + ToUpper(tail)
  {
    ToUpperConcat(prefix + text + mark, tail);
    ToUpperConcat(prefix + text, mark);
    ToUpperConcat(prefix, text);
  }

  lemma TwoParameters(prefix: string, body: string, first: string, last: string)
    ensures prefix + body + ("?" + first + "&") + last == UriText(prefix, body, [first, last])
  {
    assert [first, last][1..] == [last];
    assert Join([first, last], '&') == first + ['&'] + last;
  }

  lemma OneParameter(prefix: string, body: string, last: string)
    ensures prefix + body + "?" + last == UriText(prefix, body, [last])
  {
  }

  lemma FullTextShape(address: Address, amount: Amount, invoice: Invoice)
    requires amount.msats + 999 <= U64_MAX
    ensures ReceiveText(Some(address), Some(amount), invoice) ==
            UriText("BITCOIN:", UriBody(Some(address)), Parameters(Some(address), Some(amount), invoice))
  {
    var first, last := "AMOUNT=" + Format(amount.SatsRoundingUp()), "LIGHTNING=" + ToUpper(invoice.text);
    var mark := "?" + first + "&";
    assert "?AMOUNT=" == "?" + "AMOUNT=";
    assert "?AMOUNT=" + Format(amount.SatsRoundingUp()) + "&" == mark;
    UpperTail(invoice.text);
    UpperAssembly("BITCOIN:", address.text, mark, "LIGHTNING=" + invoice.text);
    TwoParameters("BITCOIN:", ToUpper(address.text), first, last);
    assert Parameters(Some(address), Some(amount), invoice) == [first, last];
  }

  lemma ShortTextShape(address: Option<Address>, amount: Option<Amount>, invoice: Invoice)
    requires amount.Some? ==> amount.value.msats + 999 <= U64_MAX
    requires address.None? || amount.None?
    ensures ReceiveText(address, amount, invoice) ==
            UriText("BITCOIN:", UriBody(address), Parameters(address, amount, invoice))
  {
    var text := if address.Some? then address.value.text else "";
    var last := "LIGHTNING=" + ToUpper(invoice.text);
    assert "BITCOIN:" + "" == "BITCOIN:";
    assert DraftUri(address, amount, invoice) == "BITCOIN:" + text + "?" + ("LIGHTNING=" + invoice.text);
    UpperTail(invoice.text);
    UpperAssembly("BITCOIN:", text, "?", "LIGHTNING=" + invoice.text);
    OneParameter("BITCOIN:", ToUpper(text), last);
    assert UriBody(address) == ToUpper(text);
    assert Parameters(address, amount, invoice) == [last];
  }

  lemma UpperTail(text: string)
    ensures ToUpper("LIGHTNING=" + text) == "LIGHTNING=" + ToUpper(text)
  {
    ToUpperConcat("LIGHTNING=", text);
  }

  /** What the URI offers: the address with the whole-satoshi amount, and the invoice. */
  function OfferedMethods(address: Option<Address>, amount: Option<Amount>, invoice: Invoice): seq<PaymentMethod>
    requires amount.Some? ==> amount.value.msats <= MAX_MSATS
  {
    (if address.Some? then
       [OnChain(if amount.Some? then Some(FromSats(amount.value.SatsRoundingUp())) else None, address.value)]
     else []) +
    [LightningBolt11(invoice)]
  }

  /** Before the amounts are compared, the query yields exactly the offered methods. */
  lemma ReceiveUriScans(c: Codecs, network: Network, supportsPop: bool,
                        address: Option<Address>, amount: Option<Amount>, invoice: Invoice)
    requires ReadsBack(c, network, address, invoice) && ReadsNumerals(c)
    requires amount.Some? ==> amount.value.msats <= MAX_MSATS
    ensures var methods := OfferedMethods(address, amount, invoice);
      ParseResolved(c, ReceiveText(address, amount, invoice), network, supportsPop, None, None) ==
      if AmountVerdict(methods).Some? then Err(AmountFailure(AmountVerdict(methods).value))
      else Ok(PaymentInstructions(invoice.description, methods, None, None, None))
  {
    var params := Parameters(address, amount, invoice);
    ReceiveTextShape(address, amount, invoice);
    ParametersDelimited(c, network, address, amount, invoice);
    UriTextParses(c, network, supportsPop, "BITCOIN:", UriBody(address), params, None, None);
    var start := Body(c, network, UriBody(address)).value;
    ReceiveUriPasses(c, network, supportsPop, start, address, amount, invoice);
  }

  lemma ParametersDelimited(c: Codecs, network: Network, address: Option<Address>, amount: Option<Amount>,
                            invoice: Invoice)
    requires ReadsBack(c, network, address, invoice)
    requires amount.Some? ==> amount.value.msats + 999 <= U64_MAX
    ensures forall p :: p in Parameters(address, amount, invoice) ==> '&' !in p
    ensures EqIgnoreCase("BITCOIN:", BTC_PREFIX)
  {
    if amount.Some? {
      FormatAlphabet(amount.value.SatsRoundingUp());
    }
  }

  lemma ReceiveUriPasses(c: Codecs, network: Network, supportsPop: bool, start: Scan,
                         address: Option<Address>, amount: Option<Amount>, invoice: Invoice)
    requires ReadsBack(c, network, address, invoice) && ReadsNumerals(c)
    requires amount.Some? ==> amount.value.msats <= MAX_MSATS
    requires start == Scan(if address.Some? then [OnChain(None, address.value)] else [], None, None)
    ensures var params := Parameters(address, amount, invoice);
      var first := FirstPass(start, Effects(c, network, supportsPop, params));
      var second := SecondPass(ExtraList(c, params));
      && first == Ok(Scan(start.methods + [LightningBolt11(invoice)], invoice.description, None))
      && second.Ok?
      && AllWithAmount(first.value.methods, second.value.amount) == OfferedMethods(address, amount, invoice)
  {
    LightningParameter(c, network, supportsPop, invoice);
    var last := Add(LightningBolt11(invoice), invoice.description);
    var lightning := ["LIGHTNING=" + ToUpper(invoice.text)];
    if address.Some? && amount.Some? {
      var sats := amount.value.SatsRoundingUp();
      AmountParameter(c, network, supportsPop, sats);
      EffectsConcat(c, network, supportsPop, ["AMOUNT=" + Format(sats)], lightning);
      assert [Skip] + [last] == [Skip, last];
      assert [AmountIs(Amount(sats * 1000))] + [Nothing] == [AmountIs(Amount(sats * 1000)), Nothing];
      TwoPasses(start, last, Amount(sats * 1000));
    } else {
      assert Parameters(address, amount, invoice) == lightning;
    }
  }

  lemma TwoPasses(start: Scan, last: Effect, amount: Amount)
    ensures FirstPass(start, [Skip, last]) == Applied(start, last)
    ensures SecondPass([AmountIs(amount), Nothing]) == Ok(Extras(Some(amount), None, None))
  {
    SkipInFirstPass(start, [], [last]);
    NothingInSecondPass([AmountIs(amount)], []);
    assert [] + [Skip] + [last] == [Skip, last] && [] + [last] == [last];
    assert [AmountIs(amount)] + [Nothing] + [] == [AmountIs(amount), Nothing];
    assert [AmountIs(amount)] + [] == [AmountIs(amount)];
    assert [last][..0] == [] && [AmountIs(amount)][..0] == [];
  }

  /** All offered amounts are within one satoshi of the request, so they are consistent. */
  lemma OfferedAmounts(address: Option<Address>, amount: Amount, invoice: Invoice)
    requires amount.msats <= MAX_MSATS && InvoicesFor(invoice, amount)
    ensures forall m :: m in OfferedMethods(address, Some(amount), invoice) ==>
              m.RequiredAmount().Some? && 0 <= m.RequiredAmount().value.msats - amount.msats < 1000
    ensures AmountVerdict(OfferedMethods(address, Some(amount), invoice)).None?
  {
    var methods := OfferedMethods(address, Some(amount), invoice);
    VerdictIsConsistency(methods);
  }

  // ----- Main results

  /**
   * The wallet's own URI for an amount of up to 21 million bitcoin is accepted, with exactly the
   * intended methods; the on-chain amount is the request rounded up to whole satoshis.
   */
  lemma ReceiveUriParses(c: Codecs, network: Network, supportsPop: bool,
                         address: Option<Address>, amount: Amount, invoice: Invoice)
    requires ReadsBack(c, network, address, invoice) && ReadsNumerals(c)
    requires amount.msats <= MAX_MSATS && InvoicesFor(invoice, amount)
    ensures ParseResolved(c, ReceiveText(address, Some(amount), invoice), network, supportsPop, None, None) ==
            Ok(PaymentInstructions(invoice.description, OfferedMethods(address, Some(amount), invoice),
                                   None, None, None))
    ensures forall m :: m in OfferedMethods(address, Some(amount), invoice) ==>
              m.RequiredAmount().Some? && 0 <= m.RequiredAmount().value.msats - amount.msats < 1000
  {
    ReceiveUriScans(c, network, supportsPop, address, Some(amount), invoice);
    OfferedAmounts(address, amount, invoice);
  }

  /** Without an amount the URI is accepted exactly when the invoice has none, or stands alone and is not too large. */
  lemma AmountlessReceiveUriParses(c: Codecs, network: Network, supportsPop: bool, address: Option<Address>,
                                   invoice: Invoice)
    requires ReadsBack(c, network, address, invoice) && ReadsNumerals(c)
    ensures ParseResolved(c, ReceiveText(address, None, invoice), network, supportsPop, None, None).Ok? <==>
            invoice.amountMsats.None? || (address.None? && invoice.amountMsats.value <= MAX_MSATS)
  {
    ReceiveUriScans(c, network, supportsPop, address, None, invoice);
    var methods := OfferedMethods(address, None, invoice);
    VerdictIsConsistency(methods);
    assert LightningBolt11(invoice) in methods;
    if address.Some? {
      assert OnChain(None, address.value) in methods;
    }
  }

  // ----- The URI as it is handed out

  function ChosenInvoice(tunables: Tunables, amount: Option<Amount>, estimate: Amount, custodial: Option<Invoice>,
                         lightning: Option<Invoice>): Option<Invoice>
  {
    if UsesCustody(tunables, amount, estimate) then custodial else lightning
  }

  /** On-chain payment is wanted from the threshold on, or, without an amount, if that is enabled. */
  ghost predicate WantsAddress(tunables: Tunables, amount: Option<Amount>) {
    && (amount.Some? ==> amount.value.msats >= tunables.onChainReceiveThreshold.msats)
    && (amount.None? ==> tunables.enableAmountlessReceiveOnChain)
  }

  /**
   * What is handed out: with the custodial invoice if there is no amount, or if it fits the custodial limit and
   * reaches what lightning is sure to receive; else with the node's. It fails if what it takes is missing.
   */
  ghost predicate HandsOut(tunables: Tunables, amount: Option<Amount>, estimate: Amount, custodial: Option<Invoice>,
                           lightning: Option<Invoice>, newAddress: Option<Address>, uri: Option<string>)
    requires amount.Some? ==> amount.value.msats + 999 <= U64_MAX
  {
    var small := amount.Some? && amount.value.msats <= tunables.custodialBalanceLimit.msats;
    var unsure := amount.Some? && amount.value.msats >= estimate.msats - tunables.rebalanceMin.msats;
    var invoice := if amount.None? || (small && unsure) then custodial else lightning;
    if invoice.None? || (WantsAddress(tunables, amount) && newAddress.None?) then uri == None
    else
      && (WantsAddress(tunables, amount) ==> uri == Some(ReceiveText(newAddress, amount, invoice.value)))
      && (!WantsAddress(tunables, amount) ==> uri == Some(ReceiveText(None, amount, invoice.value)))
  }

  /** The services deliver what they are asked for, and it reads back: the invoice for the amount, or for any amount. */
  ghost predicate Delivers(c: Codecs, network: Network, tunables: Tunables, amount: Option<Amount>, estimate: Amount,
                           custodial: Option<Invoice>, lightning: Option<Invoice>, newAddress: Option<Address>)
  {
    var invoice := ChosenInvoice(tunables, amount, estimate, custodial, lightning);
    && invoice.Some?
    && ReadsBack(c, network, newAddress, invoice.value) && ReadsNumerals(c)
    && (match amount
        case Some(a) => a.msats <= MAX_MSATS && InvoicesFor(invoice.value, a)
        case None => invoice.value.amountMsats.None?)
  }

  /** Accepted, whether or not callbacks are supported; with an on-chain method just if one was to be offered. */
  ghost predicate ParsesBack(c: Codecs, network: Network, text: string, onChain: bool, amount: Option<Amount>) {
    forall supportsPop: bool ::
      var r := ParseResolved(c, text, network, supportsPop, None, None);
      && r.Ok?
      && ((exists m :: m in r.value.methods && m.OnChain?) <==> onChain)
      && (exists m :: m in r.value.methods && m.LightningBolt11?)
      && (forall m :: m in r.value.methods ==>
            match amount
            case None => m.RequiredAmount().None?
            case Some(a) => m.RequiredAmount().Some? && 0 <= m.RequiredAmount().value.msats - a.msats < 1000)
  }

  /**
   * Whatever URI the wallet hands out parses back: with an address exactly when the amount reaches the
   * threshold (or, without an amount, when that is enabled), and always with an invoice.
   */
  lemma HandedOutUriParses(c: Codecs, network: Network, tunables: Tunables, amount: Option<Amount>, estimate: Amount,
                           custodial: Option<Invoice>, lightning: Option<Invoice>, newAddress: Option<Address>)
    requires Delivers(c, network, tunables, amount, estimate, custodial, lightning, newAddress)
    requires ReceiveOutcome(tunables, amount, estimate, custodial, lightning, newAddress).Some?
    ensures ParsesBack(c, network, ReceiveOutcome(tunables, amount, estimate, custodial, lightning, newAddress).value,
                       WantsAddress(tunables, amount), amount)
  {
    var invoice := ChosenInvoice(tunables, amount, estimate, custodial, lightning).value;
    var address := if OffersOnChain(tunables, amount) then newAddress else None;
    var text := ReceiveText(address, amount, invoice);
    var methods := OfferedMethods(address, amount, invoice);
    assert LightningBolt11(invoice) in methods;
    assert address.Some? ==> methods[0].OnChain? && methods[0] in methods;
    forall supportsPop: bool
      ensures ParseResolved(c, text, network, supportsPop, None, None).Ok?
      ensures ParseResolved(c, text, network, supportsPop, None, None).value.methods == methods
    {
      ReceiveUriScans(c, network, supportsPop, address, amount, invoice);
      if amount.Some? {
        OfferedAmounts(address, amount.value, invoice);
      } else {
        AmountlessReceiveUriParses(c, network, supportsPop, address, invoice);
      }
    }
    if amount.Some? {
      OfferedAmounts(address, amount.value, invoice);
    }
  }
}
