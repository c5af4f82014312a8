/**
 * `parse_resolved_instructions`: BIP 321 URIs in two passes over their parameters, `lightning:` URIs,
 * and bare addresses, invoices and offers.
 */
module Parser {
  import opened Wrappers
  import opened Amounts
  import opened Text
  import opened Instructions
  import PercentEncoding

  /** The external parsers. `btc` reads a decimal amount of bitcoin and reports satoshis. */
  datatype Codecs = Codecs(
    address: string -> Option<Address>,
    bolt11: string -> Option<Invoice>,
    offer: string -> Option<Offer>,
    btc: string -> Option<U64>,
    validUtf8: string -> bool)

  datatype InvalidReason =
    NotSegwit | MissingValue | BadEscape | NotLocalApp | RepeatedParameter | BadAmount | AmountTooLarge

  datatype ParseError =
    | InvalidBolt11
    | InvalidBolt12
    | InvalidOnChain
    | WrongNetwork
    | InconsistentInstructions(amounts: AmountError)
    | InvalidInstructions(reason: InvalidReason)
    | UnknownPaymentInstructions
    | UnknownRequiredParameter
    | HrnResolutionError

  type Parsed = Result<PaymentInstructions, ParseError>

  // ----- Keys

  datatype Key = Bc | Lightning | Lno | AmountKey | Label | Message | Pop | ReqPop | UnknownRequired | Unknown

  predicate IsKey(k: string, name: string, required: string) {
    EqIgnoreCase(k, name) || EqIgnoreCase(k, required)
  }

  predicate HasPrefix(s: string, prefix: string) {
    |s| >= |prefix| && EqIgnoreCase(s[..|prefix|], prefix)
  }

  function KeyOf(k: string): Key {
    if IsKey(k, "bc", "req-bc") then Bc
    else if IsKey(k, "lightning", "req-lightning") then Lightning
    else if IsKey(k, "lno", "req-lno") then Lno
    else if IsKey(k, "amount", "req-amount") then AmountKey
    else if IsKey(k, "label", "req-label") then Label
    else if IsKey(k, "message", "req-message") then Message
    else if IsKey(k, "pop", "req-pop") then (if EqIgnoreCase(k, "req-pop") then ReqPop else Pop)
    else if HasPrefix(k, "req-") then UnknownRequired
    else Unknown
  }

  function ParamKey(param: string): Key {
    KeyOf(SplitOnce(param, '=').0)
  }

  function ParamValue(param: string): Option<string> {
    SplitOnce(param, '=').1
  }

  // ----- First pass

  function RequireNetwork(address: Option<Address>, network: Network): Result<Address, ParseError> {
    match address
    case None => Err(InvalidOnChain)
    case Some(a) => if network in a.networks then Ok(a) else Err(WrongNetwork)
  }

  /** `instructions_from_bolt11`. */
  function FromBolt11(invoice: Option<Invoice>, network: Network): Result<Invoice, ParseError> {
    match invoice
    case None => Err(InvalidBolt11)
    case Some(i) => if i.network == network then Ok(i) else Err(WrongNetwork)
  }

  function FromOffer(offer: Option<Offer>, network: Network): Result<Offer, ParseError> {
    match offer
    case None => Err(InvalidBolt12)
    case Some(o) => if network in o.networks then Ok(o) else Err(WrongNetwork)
  }

  const NOT_LOCAL: seq<string> :=
    ["javascript", "http", "https", "file", "mailto", "ftp", "wss", "ws", "ssh", "tel", "data", "blob"]

  predicate OpensLocalApp(callback: string) {
    forall i :: 0 <= i < |NOT_LOCAL| ==> !EqIgnoreCase(SplitOnce(callback, ':').0, NOT_LOCAL[i])
  }

  /** What one parameter contributes in the first pass; it never depends on the other parameters. */
  datatype Effect =
    | Skip
    | Add(paymentMethod: PaymentMethod, description: Option<string>)
    | Callback(uri: string)
    | Fail(error: ParseError)

  function EffectOf(c: Codecs, network: Network, supportsPop: bool, param: string): Effect {
    var value := ParamValue(param);
    match ParamKey(param)
    case Bc =>
      if value.None? then Fail(InvalidInstructions(MissingValue))
      else if !HasPrefix(value.value, "bc1") then Fail(InvalidInstructions(NotSegwit))
      else
        (match RequireNetwork(c.address(value.value), network)
         case Ok(address) => Add(OnChain(None, address), None)
         case Err(e) => Fail(e))
    case Lightning =>
      if value.None? then Fail(InvalidInstructions(MissingValue))
      else
        (match FromBolt11(c.bolt11(value.value), network)
         case Ok(invoice) => Add(LightningBolt11(invoice), invoice.description)
         case Err(e) => Fail(e))
    case Lno =>
      if value.None? then Fail(InvalidInstructions(MissingValue))
      else
        (match FromOffer(c.offer(value.value), network)
         case Ok(offer) => Add(LightningBolt12(offer), offer.description)
         case Err(e) => Fail(e))
    case Pop => PopEffect(c, value)
    case ReqPop => if supportsPop then PopEffect(c, value) else Fail(UnknownRequiredParameter)
    case UnknownRequired => Fail(UnknownRequiredParameter)
    case _ => Skip
  }

  function PopEffect(c: Codecs, value: Option<string>): Effect {
    if value.None? then Fail(InvalidInstructions(MissingValue))
    else
      match PercentEncoding.Unescaped(value.value, c.validUtf8)
      case None => Fail(InvalidInstructions(BadEscape))
      case Some(uri) => if OpensLocalApp(uri) then Callback(uri) else Fail(InvalidInstructions(NotLocalApp))
  }

  datatype Scan = Scan(methods: seq<PaymentMethod>, description: Option<string>, pop: Option<string>)

  function Applied(scan: Scan, effect: Effect): Result<Scan, ParseError> {
    match effect
    case Skip => Ok(scan)
    case Add(m, description) =>
      Ok(scan.(methods := scan.methods + [m],
               description := if description.Some? then description else scan.description))
    case Callback(uri) => Ok(scan.(pop := Some(uri)))
    case Fail(e) => Err(e)
  }

  function Effects(c: Codecs, network: Network, supportsPop: bool, params: seq<string>): (effects: seq<Effect>)
    ensures |effects| == |params|
  {
    seq(|params|, i requires 0 <= i < |params| => EffectOf(c, network, supportsPop, params[i]))
  }

  function FirstPass(start: Scan, effects: seq<Effect>): Result<Scan, ParseError> {
    if effects == [] then Ok(start)
    else
      var scan :- FirstPass(start, effects[..|effects| - 1]);
      Applied(scan, effects[|effects| - 1])
  }

  // ----- Second pass

  /** What one parameter contributes in the second pass. */
  datatype Extra = Nothing | AmountIs(amount: Amount) | BadAmountIs(error: InvalidReason, onlyFirst: bool)
                 | LabelIs(text: Option<string>) | MessageIs(text: Option<string>)

  function ExtraOf(c: Codecs, param: string): Extra {
    var value := ParamValue(param);
    match ParamKey(param)
    case AmountKey =>
      if value.None? then BadAmountIs(MissingValue, false)
      else
        (match c.btc(value.value)
         case Some(sats) => AmountIs(FromSatsWrapping(sats))
         case None => BadAmountIs(BadAmount, true))
    case Label => LabelIs(value)
    case Message => MessageIs(value)
    case _ => Nothing
  }

  datatype Extras = Extras(amount: Option<Amount>, labelText: Option<string>, messageText: Option<string>)

  const NO_EXTRAS := Extras(None, None, None)

  function Noted(extras: Extras, extra: Extra): Result<Extras, ParseError> {
    match extra
    case Nothing => Ok(extras)
    case AmountIs(amount) =>
      if extras.amount.Some? then Err(InvalidInstructions(RepeatedParameter)) else Ok(extras.(amount := Some(amount)))
    case BadAmountIs(reason, onlyFirst) =>
      if onlyFirst && extras.amount.Some? then Err(InvalidInstructions(RepeatedParameter))
      else Err(InvalidInstructions(reason))
    case LabelIs(text) =>
      if extras.labelText.Some? then Err(InvalidInstructions(RepeatedParameter)) else Ok(extras.(labelText := text))
    case MessageIs(text) =>
      if extras.messageText.Some? then Err(InvalidInstructions(RepeatedParameter)) else Ok(extras.(messageText := text))
  }

  function ExtraList(c: Codecs, params: seq<string>): (list: seq<Extra>)
    ensures |list| == |params|
  {
    seq(|params|, i requires 0 <= i < |params| => ExtraOf(c, params[i]))
  }

  function SecondPass(extras: seq<Extra>): Result<Extras, ParseError> {
    if extras == [] then Ok(NO_EXTRAS)
    else
      var before :- SecondPass(extras[..|extras| - 1]);
      Noted(before, extras[|extras| - 1])
  }

  function WithAmount(m: PaymentMethod, amount: Option<Amount>): PaymentMethod {
    if m.OnChain? && amount.Some? then m.(required := amount) else m
  }

  function AllWithAmount(methods: seq<PaymentMethod>, amount: Option<Amount>): (r: seq<PaymentMethod>)
    ensures |r| == |methods|
  {
    seq(|methods|, i requires 0 <= i < |methods| => WithAmount(methods[i], amount))
  }

  function AmountFailure(error: AmountError): ParseError {
    if error.TooLarge? then InvalidInstructions(AmountTooLarge) else InconsistentInstructions(error)
  }

  // ----- The whole parser

  function Body(c: Codecs, network: Network, body: string): Result<Scan, ParseError> {
    if body == [] then Ok(Scan([], None, None))
    else
      var address :- RequireNetwork(c.address(body), network);
      Ok(Scan([OnChain(None, address)], None, None))
  }

  function ParseUri(c: Codecs, network: Network, supportsPop: bool, body: string, params: Option<string>,
                    hrn: Option<string>, proof: Option<string>): Parsed
  {
    var start :- Body(c, network, body);
    match params
    case None =>
      if start.methods == [] then Err(UnknownPaymentInstructions)
      else Ok(PaymentInstructions(None, start.methods, None, hrn, proof))
    case Some(query) => ParseQuery(c, network, supportsPop, start, Split(query, '&'), hrn, proof)
  }

  function ParseQuery(c: Codecs, network: Network, supportsPop: bool, start: Scan, params: seq<string>,
                      hrn: Option<string>, proof: Option<string>): Parsed
  {
    Concluded(FirstPass(start, Effects(c, network, supportsPop, params)), SecondPass(ExtraList(c, params)), hrn, proof)
  }

  /** What the two passes amount to: the amount is patched in, and the methods are checked. */
  function Concluded(first: Result<Scan, ParseError>, second: Result<Extras, ParseError>,
                     hrn: Option<string>, proof: Option<string>): Parsed
  {
    var scan :- first;
    var extras :- second;
    var methods := AllWithAmount(scan.methods, extras.amount);
    if methods == [] then Err(UnknownPaymentInstructions)
    else if AmountVerdict(methods).Some? then Err(AmountFailure(AmountVerdict(methods).value))
    else Ok(PaymentInstructions(scan.description, methods, scan.pop, hrn, proof))
  }

  function ParseInvoice(invoice: Option<Invoice>, network: Network, hrn: Option<string>, proof: Option<string>): Parsed
  {
    var i :- FromBolt11(invoice, network);
    Ok(PaymentInstructions(i.description, [LightningBolt11(i)], None, hrn, proof))
  }

  function ParseBare(c: Codecs, network: Network, text: string, hrn: Option<string>, proof: Option<string>): Parsed {
    if c.address(text).Some? then
      var address :- RequireNetwork(c.address(text), network);
      Ok(PaymentInstructions(None, [OnChain(None, address)], None, hrn, proof))
    else if c.bolt11(text).Some? then ParseInvoice(c.bolt11(text), network, hrn, proof)
    else if c.offer(text).Some? then
      var offer :- FromOffer(c.offer(text), network);
      Ok(PaymentInstructions(offer.description, [LightningBolt12(offer)], None, hrn, proof))
    else Err(UnknownPaymentInstructions)
  }

  const BTC_PREFIX := "bitcoin:"
  const LN_PREFIX := "lightning:"

  function ParseResolved(c: Codecs, text: string, network: Network, supportsPop: bool,
                         hrn: Option<string>, proof: Option<string>): Parsed
  {
    if HasPrefix(text, BTC_PREFIX) then
      var (body, params) := SplitOnce(text[|BTC_PREFIX|..], '?');
      ParseUri(c, network, supportsPop, body, params, hrn, proof)
    else if HasPrefix(text, LN_PREFIX) then ParseInvoice(c.bolt11(text[|LN_PREFIX|..]), network, hrn, proof)
    else ParseBare(c, network, text, hrn, proof)
  }

  /** `parse_payment_instructions`: a human readable name is resolved first, and recorded in the result. */
  function ParsePaymentInstructions(c: Codecs, text: string, network: Network, supportsPop: bool,
                                    readName: string -> Option<string>,
                                    resolve: string -> Option<(Option<string>, string)>): Parsed
  {
    match readName(text)
    case Some(hrn) =>
      (match resolve(hrn)
       case Some((proof, resolved)) => ParseResolved(c, resolved, network, supportsPop, Some(hrn), proof)
       case None => Err(HrnResolutionError))
    case None => ParseResolved(c, text, network, supportsPop, None, None)
  }

  // ----- Errors are final

  lemma {:induction false} FirstPassStops(start: Scan, effects: seq<Effect>, k: nat)
    requires k <= |effects| && FirstPass(start, effects[..k]).Err?
    ensures FirstPass(start, effects) == FirstPass(start, effects[..k])
    decreases |effects|
  {
    if k == |effects| {
      assert effects[..k] == effects;
    } else {
      var before := effects[..|effects| - 1];
      assert before[..k] == effects[..k];
      FirstPassStops(start, before, k);
    }
  }

  lemma {:induction false} SecondPassStops(extras: seq<Extra>, k: nat)
    requires k <= |extras| && SecondPass(extras[..k]).Err?
    ensures SecondPass(extras) == SecondPass(extras[..k])
    decreases |extras|
  {
    if k == |extras| {
      assert extras[..k] == extras;
    } else {
      var before := extras[..|extras| - 1];
      assert before[..k] == extras[..k];
      SecondPassStops(before, k);
    }
  }

  // ----- The imperative parser

  /** The first loop over the parameters, which grows the list of methods. */
  method ScanParameters(start: Scan, effects: seq<Effect>) returns (r: Result<Scan, ParseError>)
    ensures r == FirstPass(start, effects)
  {
    var methods, description, pop := start.methods, start.description, start.pop;
    for i := 0 to |effects|
      invariant FirstPass(start, effects[..i]) == Ok(Scan(methods, description, pop))
    {
      assert effects[..i + 1][..i] == effects[..i];
      match effects[i]
      case Skip =>
      case Add(m, d) =>
        if d.Some? {
          description := d;
        }
        methods := methods + [m];
      case Callback(uri) =>
        pop := Some(uri);
      case Fail(e) =>
        FirstPassStops(start, effects, i + 1);
        return Err(e);
    }
    assert effects[..|effects|] == effects;
    return Ok(Scan(methods, description, pop));
  }

  /** The second loop: `amount`, `label` and `message`. */
  method ScanExtras(list: seq<Extra>) returns (r: Result<Extras, ParseError>)
    ensures r == SecondPass(list)
  {
    var amount, labelText, messageText := None, None, None;
    for i := 0 to |list|
      invariant SecondPass(list[..i]) == Ok(Extras(amount, labelText, messageText))
    {
      assert list[..i + 1][..i] == list[..i];
      var repeated := match list[i]
        case AmountIs(_) => amount.Some?
        case BadAmountIs(_, onlyFirst) => onlyFirst && amount.Some?
        case LabelIs(_) => labelText.Some?
        case MessageIs(_) => messageText.Some?
        case Nothing => false;
      if repeated {
        SecondPassStops(list, i + 1);
        return Err(InvalidInstructions(RepeatedParameter));
      }
      match list[i]
      case Nothing =>
      case AmountIs(a) =>
        amount := Some(a);
      case BadAmountIs(reason, _) =>
        SecondPassStops(list, i + 1);
        return Err(InvalidInstructions(reason));
      case LabelIs(text) =>
        labelText := text;
      case MessageIs(text) =>
        messageText := text;
    }
    assert list[..|list|] == list;
    return Ok(Extras(amount, labelText, messageText));
  }

  /** Patches the URI's amount into every on-chain method, in place. */
  method PatchAmounts(original: seq<PaymentMethod>, amount: Option<Amount>) returns (methods: seq<PaymentMethod>)
    ensures methods == AllWithAmount(original, amount)
  {
    methods := original;
    if amount.Some? {
      for i := 0 to |methods|
        invariant |methods| == |original|
        invariant forall j :: 0 <= j < i ==> methods[j] == WithAmount(original[j], amount)
        invariant forall j :: i <= j < |methods| ==> methods[j] == original[j]
      {
        if methods[i].OnChain? {
          methods := methods[i := OnChain(amount, methods[i].address)];
        }
      }
    }
  }

  /** The query of a `bitcoin:` URI, on top of what its body contributed. */
  method ParseQueryInstructions(c: Codecs, network: Network, supportsPop: bool, start: Scan, params: seq<string>,
                                hrn: Option<string>, proof: Option<string>) returns (r: Parsed)
    ensures r == ParseQuery(c, network, supportsPop, start, params, hrn, proof)
  {
    var scanned := ScanParameters(start, Effects(c, network, supportsPop, params));
    if scanned.Err? {
      return Err(scanned.error);
    }
    var extras := ScanExtras(ExtraList(c, params));
    if extras.Err? {
      return Err(extras.error);
    }
    var methods := PatchAmounts(scanned.value.methods, extras.value.amount);
    if methods == [] {
      return Err(UnknownPaymentInstructions);
    }
    var error := CheckAmounts(methods);
    if error.Some? {
      return Err(AmountFailure(error.value));
    }
    return Ok(PaymentInstructions(scanned.value.description, methods, scanned.value.pop, hrn, proof));
  }

  /** The branch for `bitcoin:` URIs. */
  method ParseUriInstructions(c: Codecs, network: Network, supportsPop: bool, body: string, query: Option<string>,
                              hrn: Option<string>, proof: Option<string>) returns (r: Parsed)
    ensures r == ParseUri(c, network, supportsPop, body, query, hrn, proof)
  {
    var methods := [];
    if body != [] {
      var address := RequireNetwork(c.address(body), network);
      if address.Err? {
        return Err(address.error);
      }
      methods := [OnChain(None, address.value)];
    }
    if query.Some? {
      r := ParseQueryInstructions(c, network, supportsPop, Scan(methods, None, None), Split(query.value, '&'),
                                  hrn, proof);
    } else if methods == [] {
      r := Err(UnknownPaymentInstructions);
    } else {
      r := Ok(PaymentInstructions(None, methods, None, hrn, proof));
    }
  }

  method ParseResolvedInstructions(c: Codecs, text: string, network: Network, supportsPop: bool,
                                   hrn: Option<string>, proof: Option<string>) returns (r: Parsed)
    ensures r == ParseResolved(c, text, network, supportsPop, hrn, proof)
    ensures r.Ok? ==> WellFormed(r.value)
  {
    ParsedWellFormed(c, text, network, supportsPop, hrn, proof);
    if HasPrefix(text, BTC_PREFIX) {
      var (body, query) := SplitOnce(text[|BTC_PREFIX|..], '?');
      r := ParseUriInstructions(c, network, supportsPop, body, query, hrn, proof);
    } else if HasPrefix(text, LN_PREFIX) {
      r := ParseInvoice(c.bolt11(text[|LN_PREFIX|..]), network, hrn, proof);
    } else {
      r := ParseBare(c, network, text, hrn, proof);
    }
  }

  // ----- What a successful parse establishes

  lemma SingleMethodWellFormed(instructions: PaymentInstructions)
    requires |instructions.methods| == 1
    ensures WellFormed(instructions)
  {
    assert forall m :: m in instructions.methods ==> m == instructions.methods[0];
  }

  lemma EffectUnpatched(c: Codecs, network: Network, supportsPop: bool, param: string)
    ensures var effect := EffectOf(c, network, supportsPop, param);
      effect.Add? && effect.paymentMethod.OnChain? ==> effect.paymentMethod.required == None
  {
  }

  lemma EffectsUnpatched(c: Codecs, network: Network, supportsPop: bool, params: seq<string>)
    ensures forall e :: e in Effects(c, network, supportsPop, params) && e.Add? && e.paymentMethod.OnChain? ==>
              e.paymentMethod.required == None
  {
    var effects := Effects(c, network, supportsPop, params);
    forall i | 0 <= i < |params|
      ensures effects[i].Add? && effects[i].paymentMethod.OnChain? ==> effects[i].paymentMethod.required == None
    {
      EffectUnpatched(c, network, supportsPop, params[i]);
    }
  }

  lemma {:induction false} UnpatchedOnChain(start: Scan, effects: seq<Effect>)
    requires forall m :: m in start.methods && m.OnChain? ==> m.required == None
    requires forall e :: e in effects && e.Add? && e.paymentMethod.OnChain? ==> e.paymentMethod.required == None
    ensures var scan := FirstPass(start, effects);
      scan.Ok? ==> forall m :: m in scan.value.methods && m.OnChain? ==> m.required == None
  {
    if effects == [] {
    } else {
      UnpatchedOnChain(start, effects[..|effects| - 1]);
    }
  }

  /** The on-chain methods of a URI with a query all carry the same amount. */
  lemma QueryWellFormed(c: Codecs, network: Network, supportsPop: bool, start: Scan, params: seq<string>,
                        hrn: Option<string>, proof: Option<string>)
    requires forall m :: m in start.methods && m.OnChain? ==> m.required == None
    ensures var r := ParseQuery(c, network, supportsPop, start, params, hrn, proof);
      r.Ok? ==> WellFormed(r.value) && r.value.hrn == hrn && r.value.hrnProof == proof
  {
    var r := ParseQuery(c, network, supportsPop, start, params, hrn, proof);
    if r.Ok? {
      var effects := Effects(c, network, supportsPop, params);
      EffectsUnpatched(c, network, supportsPop, params);
      UnpatchedOnChain(start, effects);
      var amount := SecondPass(ExtraList(c, params)).value.amount;
      VerdictIsConsistency(r.value.methods);
    }
  }

  lemma UriWellFormed(c: Codecs, network: Network, supportsPop: bool, body: string, query: Option<string>,
                      hrn: Option<string>, proof: Option<string>)
    ensures var r := ParseUri(c, network, supportsPop, body, query, hrn, proof);
      r.Ok? ==> WellFormed(r.value) && r.value.hrn == hrn && r.value.hrnProof == proof
  {
    var start := Body(c, network, body);
    if start.Ok? {
      match query
      case None =>
        if start.value.methods != [] {
          SingleMethodWellFormed(PaymentInstructions(None, start.value.methods, None, hrn, proof));
        }
      case Some(q) =>
        QueryWellFormed(c, network, supportsPop, start.value, Split(q, '&'), hrn, proof);
    }
  }

  lemma BareWellFormed(c: Codecs, network: Network, text: string, hrn: Option<string>, proof: Option<string>)
    ensures var r := ParseBare(c, network, text, hrn, proof);
      r.Ok? ==> WellFormed(r.value) && r.value.hrn == hrn && r.value.hrnProof == proof
  {
    var r := ParseBare(c, network, text, hrn, proof);
    if r.Ok? {
      SingleMethodWellFormed(r.value);
    }
  }

  /** Every successful parse, from any input form, satisfies what the accessors rely on. */
  lemma ParsedWellFormed(c: Codecs, text: string, network: Network, supportsPop: bool,
                         hrn: Option<string>, proof: Option<string>)
    ensures var r := ParseResolved(c, text, network, supportsPop, hrn, proof);
      r.Ok? ==> WellFormed(r.value) && r.value.hrn == hrn && r.value.hrnProof == proof
  {
    if HasPrefix(text, BTC_PREFIX) {
      var (body, query) := SplitOnce(text[|BTC_PREFIX|..], '?');
      UriWellFormed(c, network, supportsPop, body, query, hrn, proof);
    } else if HasPrefix(text, LN_PREFIX) {
      var r := ParseInvoice(c.bolt11(text[|LN_PREFIX|..]), network, hrn, proof);
      if r.Ok? {
        SingleMethodWellFormed(r.value);
      }
    } else {
      BareWellFormed(c, network, text, hrn, proof);
    }
  }

  /** The same for text that may first have to be resolved, together with the accessors' promises. */
  lemma PaymentInstructionsReliable(c: Codecs, text: string, network: Network, supportsPop: bool,
                                    readName: string -> Option<string>,
                                    resolve: string -> Option<(Option<string>, string)>, amount: Amount)
    requires ParsePaymentInstructions(c, text, network, supportsPop, readName, resolve).Ok?
    ensures var instructions := ParsePaymentInstructions(c, text, network, supportsPop, readName, resolve).value;
      var methods := instructions.methods;
      && methods != []
      && (forall m :: m in methods ==>
            m.RequiredAmount() ==
            if m.IsLightning() then instructions.LnPaymentAmount() else instructions.OnChainPaymentAmount())
      && (LargestAmount(methods).None? <==> forall m :: m in methods ==> m.RequiredAmount().None?)
      && (LargestAmount(methods).Some? ==>
            (forall m :: m in methods ==>
              (m.RequiredAmount().Some? &&
               0 <= LargestAmount(methods).value.msats - m.RequiredAmount().value.msats
                 <= MAX_AMOUNT_DIFFERENCE.msats)))
      && (SetAmount(instructions, amount).Ok? <==>
            (forall m :: m in methods ==> m.RequiredAmount().None?) ||
            (exists m :: m in methods && m.RequiredAmount() == Some(amount)))
      && (SetAmount(instructions, amount).Ok? ==> SetAmount(instructions, amount).value == (instructions, amount))
  {
    var instructions := ParsePaymentInstructions(c, text, network, supportsPop, readName, resolve).value;
    match readName(text) {
      case Some(hrn) =>
        var (proof, resolved) := resolve(hrn).value;
        ParsedWellFormed(c, resolved, network, supportsPop, Some(hrn), proof);
      case None =>
        ParsedWellFormed(c, text, network, supportsPop, None, None);
    }
    AccessorsAgree(instructions);
    SetAmountSucceeds(instructions, amount);
  }
}
