/**
 * What each parameter of a BIP 321 URI contributes and when it is refused, and what that makes of whole
 * texts: which methods, for which network, with which description and callback, and which error.
 */
module Parameters {
  import opened Wrappers
  import opened Amounts
  import opened Text
  import opened Instructions
  import opened Parser
  import opened Bip321
  import PercentEncoding

  // ----- Keys

  /** No key is two names at once. */
  lemma NotBoth(k: string, a: string, b: string, i: nat)
    requires |a| != |b| || (i < |a| && LowerChar(a[i]) != LowerChar(b[i]))
    ensures !(EqIgnoreCase(k, a) && EqIgnoreCase(k, b))
  {
  }

  /** Which names are read as which key. */
  lemma KeysRead(k: string)
    ensures KeyOf(k) == Bc <==> EqIgnoreCase(k, "bc") || EqIgnoreCase(k, "req-bc")
    ensures KeyOf(k) == Lightning <==> EqIgnoreCase(k, "lightning") || EqIgnoreCase(k, "req-lightning")
    ensures KeyOf(k) == Lno <==> EqIgnoreCase(k, "lno") || EqIgnoreCase(k, "req-lno")
    ensures KeyOf(k) == AmountKey <==> EqIgnoreCase(k, "amount") || EqIgnoreCase(k, "req-amount")
    ensures KeyOf(k) == Label <==> EqIgnoreCase(k, "label") || EqIgnoreCase(k, "req-label")
    ensures KeyOf(k) == Message <==> EqIgnoreCase(k, "message") || EqIgnoreCase(k, "req-message")
    ensures KeyOf(k) == Pop <==> EqIgnoreCase(k, "pop")
    ensures KeyOf(k) == ReqPop <==> EqIgnoreCase(k, "req-pop")
  {
    NotBoth(k, "req-bc", "amount", 0);
    NotBoth(k, "lightning", "req-label", 0);
    NotBoth(k, "req-lno", "message", 0);
    NotBoth(k, "req-lno", "req-pop", 4);
    NotBoth(k, "message", "req-pop", 0);
    NotBoth(k, "lno", "pop", 0);
  }

  // ----- First pass, parameter by parameter

  /** `bc`: a Segwit address of the network. */
  lemma BcParameter(c: Codecs, network: Network, supportsPop: bool, param: string)
    requires ParamKey(param) == Bc
    ensures var v, e := ParamValue(param), EffectOf(c, network, supportsPop, param);
      && (v.None? ==> e == Fail(InvalidInstructions(MissingValue)))
      && (v.Some? ==>
            if |v.value| < 3 || !EqIgnoreCase(v.value[..3], "bc1") then e == Fail(InvalidInstructions(NotSegwit))
            else
              && (c.address(v.value).None? ==> e == Fail(InvalidOnChain))
              && (forall a: Address :: c.address(v.value) == Some(a) && network !in a.networks ==>
                    e == Fail(WrongNetwork))
              && (forall a: Address :: c.address(v.value) == Some(a) && network in a.networks ==>
                    e == Add(OnChain(None, a), None)))
  {
  }

  /** `lightning`: a BOLT 11 invoice of the network. */
  lemma LightningParameterIs(c: Codecs, network: Network, supportsPop: bool, param: string)
    requires ParamKey(param) == Lightning
    ensures var v, e := ParamValue(param), EffectOf(c, network, supportsPop, param);
      && (v.None? ==> e == Fail(InvalidInstructions(MissingValue)))
      && (v.Some? && c.bolt11(v.value).None? ==> e == Fail(InvalidBolt11))
      && (forall i: Invoice :: v.Some? && c.bolt11(v.value) == Some(i) && i.network != network ==>
            e == Fail(WrongNetwork))
      && (forall i: Invoice :: v.Some? && c.bolt11(v.value) == Some(i) && i.network == network ==>
            e == Add(LightningBolt11(i), i.description))
  {
  }

  /** `lno`: a BOLT 12 offer that supports the network. */
  lemma LnoParameter(c: Codecs, network: Network, supportsPop: bool, param: string)
    requires ParamKey(param) == Lno
    ensures var v, e := ParamValue(param), EffectOf(c, network, supportsPop, param);
      && (v.None? ==> e == Fail(InvalidInstructions(MissingValue)))
      && (v.Some? && c.offer(v.value).None? ==> e == Fail(InvalidBolt12))
      && (forall o: Offer :: v.Some? && c.offer(v.value) == Some(o) && network !in o.networks ==>
            e == Fail(WrongNetwork))
      && (forall o: Offer :: v.Some? && c.offer(v.value) == Some(o) && network in o.networks ==>
            e == Add(LightningBolt12(o), o.description))
  {
  }

  /** The schemes that no local application is opened for. */
  ghost predicate RefusedScheme(scheme: string) {
    || EqIgnoreCase(scheme, "javascript") || EqIgnoreCase(scheme, "http") || EqIgnoreCase(scheme, "https")
    || EqIgnoreCase(scheme, "file") || EqIgnoreCase(scheme, "mailto") || EqIgnoreCase(scheme, "ftp")
    || EqIgnoreCase(scheme, "wss") || EqIgnoreCase(scheme, "ws") || EqIgnoreCase(scheme, "ssh")
    || EqIgnoreCase(scheme, "tel") || EqIgnoreCase(scheme, "data") || EqIgnoreCase(scheme, "blob")
  }

  lemma SchemesRefused(uri: string)
    ensures OpensLocalApp(uri) <==> !RefusedScheme(SplitOnce(uri, ':').0)
  {
    assert |NOT_LOCAL| == 12;
    assert NOT_LOCAL[0] == "javascript" && NOT_LOCAL[1] == "http" && NOT_LOCAL[2] == "https" && NOT_LOCAL[3] == "file";
    assert NOT_LOCAL[4] == "mailto" && NOT_LOCAL[5] == "ftp" && NOT_LOCAL[6] == "wss" && NOT_LOCAL[7] == "ws";
    assert NOT_LOCAL[8] == "ssh" && NOT_LOCAL[9] == "tel" && NOT_LOCAL[10] == "data" && NOT_LOCAL[11] == "blob";
  }

  /** `pop`: a callback for a local application; the required form needs a caller that supports callbacks. */
  lemma PopParameter(c: Codecs, network: Network, supportsPop: bool, param: string)
    requires ParamKey(param) == Pop || ParamKey(param) == ReqPop
    ensures var v, e := ParamValue(param), EffectOf(c, network, supportsPop, param);
      if ParamKey(param) == ReqPop && !supportsPop then e == Fail(UnknownRequiredParameter)
      else
        && (v.None? ==> e == Fail(InvalidInstructions(MissingValue)))
        && (v.Some? ==>
              var bytes := PercentEncoding.Decode(v.value);
              && (bytes.None? || !c.validUtf8(bytes.value) ==> e == Fail(InvalidInstructions(BadEscape)))
              && (bytes.Some? && c.validUtf8(bytes.value) ==>
                    if RefusedScheme(SplitOnce(bytes.value, ':').0) then e == Fail(InvalidInstructions(NotLocalApp))
                    else e == Callback(bytes.value)))
  {
    var v := ParamValue(param);
    if v.Some? && PercentEncoding.Decode(v.value).Some? {
      SchemesRefused(PercentEncoding.Decode(v.value).value);
    }
  }

  /** The other keys contribute nothing in the first pass; an unknown required one is refused. */
  lemma OtherParameters(c: Codecs, network: Network, supportsPop: bool, param: string)
    ensures ParamKey(param) == UnknownRequired ==>
              EffectOf(c, network, supportsPop, param) == Fail(UnknownRequiredParameter)
    ensures ParamKey(param) in {AmountKey, Label, Message, Unknown} ==> EffectOf(c, network, supportsPop, param) == Skip
  {
  }

  // ----- Methods are for the network

  ghost predicate OnNetwork(m: PaymentMethod, network: Network) {
    && (m.LightningBolt11? ==> m.invoice.network == network)
    && (m.LightningBolt12? ==> network in m.offer.networks)
    && (m.OnChain? ==> network in m.address.networks)
  }

  lemma EffectOnNetwork(c: Codecs, network: Network, supportsPop: bool, param: string)
    ensures var e := EffectOf(c, network, supportsPop, param); e.Add? ==> OnNetwork(e.paymentMethod, network)
  {
  }

  lemma QueryOnNetwork(c: Codecs, network: Network, supportsPop: bool, start: Scan, params: seq<string>,
                       hrn: Option<string>, proof: Option<string>)
    requires forall m :: m in start.methods ==> OnNetwork(m, network)
    requires ParseQuery(c, network, supportsPop, start, params, hrn, proof).Ok?
    ensures forall m :: m in ParseQuery(c, network, supportsPop, start, params, hrn, proof).value.methods ==>
              OnNetwork(m, network)
  {
    var effects := Effects(c, network, supportsPop, params);
    FirstPassAccepts(start, effects);
    AddedAre(effects);
    forall e | e in effects && e.Add?
      ensures OnNetwork(e.paymentMethod, network)
    {
      var i :| 0 <= i < |params| && effects[i] == e;
      EffectOnNetwork(c, network, supportsPop, params[i]);
    }
    PatchedOnNetwork(FirstPass(start, effects).value.methods, SecondPass(ExtraList(c, params)).value.amount, network);
  }

  lemma PatchedOnNetwork(methods: seq<PaymentMethod>, amount: Option<Amount>, network: Network)
    requires forall m :: m in methods ==> OnNetwork(m, network)
    ensures forall m :: m in AllWithAmount(methods, amount) ==> OnNetwork(m, network)
  {
    forall m | m in AllWithAmount(methods, amount)
      ensures OnNetwork(m, network)
    {
      var i :| 0 <= i < |methods| && m == WithAmount(methods[i], amount);
      assert methods[i] in methods;
    }
  }

  // ----- The forms without a query

  ghost predicate IsBitcoinUri(text: string) {
    |text| >= 8 && EqIgnoreCase(text[..8], "bitcoin:")
  }

  ghost predicate IsLightningUri(text: string) {
    |text| >= 10 && EqIgnoreCase(text[..10], "lightning:")
  }

  /** The result of having read this method and nothing else. */
  function Lone(m: PaymentMethod, description: Option<string>, hrn: Option<string>, proof: Option<string>): Parsed {
    Ok(PaymentInstructions(description, [m], None, hrn, proof))
  }

  ghost predicate InvoiceRead(r: Parsed, invoice: Option<Invoice>, network: Network,
                              hrn: Option<string>, proof: Option<string>)
  {
    match invoice
    case None => r == Err(InvalidBolt11)
    case Some(i) =>
      r == if i.network == network then Lone(LightningBolt11(i), i.description, hrn, proof) else Err(WrongNetwork)
  }

  ghost predicate AddressRead(r: Parsed, a: Address, network: Network, hrn: Option<string>, proof: Option<string>) {
    r == if network in a.networks then Lone(OnChain(None, a), None, hrn, proof) else Err(WrongNetwork)
  }

  /** A `lightning:` URI is an invoice of the network. */
  lemma LightningUriExactly(c: Codecs, text: string, network: Network, supportsPop: bool,
                            hrn: Option<string>, proof: Option<string>)
    requires IsLightningUri(text)
    ensures InvoiceRead(ParseResolved(c, text, network, supportsPop, hrn, proof), c.bolt11(text[10..]), network,
                        hrn, proof)
  {
    assert LowerChar(text[..10][0]) == LowerChar("lightning:"[0]) == 'l';
    assert LowerChar("bitcoin:"[0]) == 'b';
    assert !HasPrefix(text, BTC_PREFIX) by {
      assert |text| >= 8 && text[..8][0] == text[..10][0];
    }
  }

  /** Any other text is tried as an address, as an invoice and as an offer, in that order. */
  lemma BareExactly(c: Codecs, text: string, network: Network, supportsPop: bool,
                    hrn: Option<string>, proof: Option<string>)
    requires !IsBitcoinUri(text) && !IsLightningUri(text)
    ensures var r := ParseResolved(c, text, network, supportsPop, hrn, proof);
      if c.address(text).Some? then AddressRead(r, c.address(text).value, network, hrn, proof)
      else if c.bolt11(text).Some? then InvoiceRead(r, c.bolt11(text), network, hrn, proof)
      else
        match c.offer(text)
        case None => r == Err(UnknownPaymentInstructions)
        case Some(o) =>
          r == if network in o.networks then Lone(LightningBolt12(o), o.description, hrn, proof) else Err(WrongNetwork)
  {
    assert |BTC_PREFIX| == 8 && |LN_PREFIX| == 10;
  }

  /** The body of a `bitcoin:` URI is empty or an address of the network; without a query it must be the latter. */
  lemma BitcoinUriExactly(c: Codecs, text: string, network: Network, supportsPop: bool,
                          hrn: Option<string>, proof: Option<string>)
    requires IsBitcoinUri(text)
    ensures var r := ParseResolved(c, text, network, supportsPop, hrn, proof);
      var (body, query) := SplitOnce(text[8..], '?');
      if body != [] && c.address(body).None? then r == Err(InvalidOnChain)
      else if body != [] && network !in c.address(body).value.networks then r == Err(WrongNetwork)
      else if query.None? then
        r == if body == [] then Err(UnknownPaymentInstructions)
             else Lone(OnChain(None, c.address(body).value), None, hrn, proof)
      else
        var methods := if body == [] then [] else [OnChain(None, c.address(body).value)];
        r == ParseQuery(c, network, supportsPop, Scan(methods, None, None), Split(query.value, '&'), hrn, proof)
  {
    assert |BTC_PREFIX| == 8;
    var (body, query) := SplitOnce(text[8..], '?');
    assert ParseResolved(c, text, network, supportsPop, hrn, proof) ==
           ParseUri(c, network, supportsPop, body, query, hrn, proof);
    BodyExactly(c, network, body);
  }

  lemma BodyExactly(c: Codecs, network: Network, body: string)
    ensures body == [] ==> Body(c, network, body) == Ok(Scan([], None, None))
    ensures body != [] && c.address(body).None? ==> Body(c, network, body) == Err(InvalidOnChain)
    ensures forall a: Address :: body != [] && c.address(body) == Some(a) ==>
              Body(c, network, body) ==
              if network in a.networks then Ok(Scan([OnChain(None, a)], None, None)) else Err(WrongNetwork)
  {
  }

  /** Whatever the form of the text, every method of a successful parse is for the network that was asked for. */
  lemma ParsedOnNetwork(c: Codecs, text: string, network: Network, supportsPop: bool,
                        hrn: Option<string>, proof: Option<string>)
    requires ParseResolved(c, text, network, supportsPop, hrn, proof).Ok?
    ensures forall m :: m in ParseResolved(c, text, network, supportsPop, hrn, proof).value.methods ==>
              OnNetwork(m, network)
  {
    if IsBitcoinUri(text) {
      BitcoinUriExactly(c, text, network, supportsPop, hrn, proof);
      var (body, query) := SplitOnce(text[8..], '?');
      if query.Some? {
        var methods := if body == [] then [] else [OnChain(None, c.address(body).value)];
        QueryOnNetwork(c, network, supportsPop, Scan(methods, None, None), Split(query.value, '&'), hrn, proof);
      }
    } else if IsLightningUri(text) {
      LightningUriExactly(c, text, network, supportsPop, hrn, proof);
    } else {
      BareExactly(c, text, network, supportsPop, hrn, proof);
    }
  }

  /** A name is resolved first, and recorded with its proof. */
  lemma NameRecorded(c: Codecs, text: string, network: Network, supportsPop: bool, readName: string -> Option<string>,
                     resolve: string -> Option<(Option<string>, string)>)
    ensures var r := ParsePaymentInstructions(c, text, network, supportsPop, readName, resolve);
      match readName(text)
      case None =>
        && r == ParseResolved(c, text, network, supportsPop, None, None)
        && (r.Ok? ==> r.value.hrn == None && r.value.hrnProof == None)
      case Some(name) =>
        match resolve(name)
        case None => r == Err(HrnResolutionError)
        case Some((proof, resolved)) =>
          && r == ParseResolved(c, resolved, network, supportsPop, Some(name), proof)
          && (r.Ok? ==> r.value.hrn == Some(name) && r.value.hrnProof == proof)
  {
    match readName(text) {
      case None => ParsedWellFormed(c, text, network, supportsPop, None, None);
      case Some(name) =>
        if resolve(name).Some? {
          var (proof, resolved) := resolve(name).value;
          ParsedWellFormed(c, resolved, network, supportsPop, Some(name), proof);
        }
    }
  }

  // ----- Description and callback

  ghost predicate Describes(e: Effect) {
    e.Add? && e.description.Some?
  }

  /** The effect at `k` is the last one that describes the recipient. */
  ghost predicate LastDescribing(effects: seq<Effect>, k: nat) {
    k < |effects| && Describes(effects[k]) && forall j :: k < j < |effects| ==> !Describes(effects[j])
  }

  ghost predicate LastCallback(effects: seq<Effect>, k: nat) {
    k < |effects| && effects[k].Callback? && forall j :: k < j < |effects| ==> !effects[j].Callback?
  }

  ghost predicate NoneDescribes(effects: seq<Effect>) {
    forall k :: 0 <= k < |effects| ==> !Describes(effects[k])
  }

  ghost predicate NoCallback(effects: seq<Effect>) {
    forall k :: 0 <= k < |effects| ==> !effects[k].Callback?
  }

  ghost predicate KeepsDescription(start: Option<string>, effects: seq<Effect>, description: Option<string>) {
    && (forall k: nat :: LastDescribing(effects, k) ==> description == effects[k].description)
    && (NoneDescribes(effects) ==> description == start)
  }

  ghost predicate KeepsCallback(start: Option<string>, effects: seq<Effect>, pop: Option<string>) {
    && (forall k: nat :: LastCallback(effects, k) ==> pop == Some(effects[k].uri))
    && (NoCallback(effects) ==> pop == start)
  }

  lemma DescriptionStep(start: Option<string>, before: seq<Effect>, last: Effect, description: Option<string>)
    requires KeepsDescription(start, before, description)
    ensures KeepsDescription(start, before + [last], if Describes(last) then last.description else description)
  {
    var effects := before + [last];
    assert effects[|before|] == last;
    assert forall k :: 0 <= k < |before| ==> effects[k] == before[k];
    forall k: nat | LastDescribing(effects, k) && k < |before|
      ensures LastDescribing(before, k)
    {
    }
  }

  lemma CallbackStep(start: Option<string>, before: seq<Effect>, last: Effect, pop: Option<string>)
    requires KeepsCallback(start, before, pop)
    ensures KeepsCallback(start, before + [last], if last.Callback? then Some(last.uri) else pop)
  {
    var effects := before + [last];
    assert effects[|before|] == last;
    assert forall k :: 0 <= k < |before| ==> effects[k] == before[k];
    forall k: nat | LastCallback(effects, k) && k < |before|
      ensures LastCallback(before, k)
    {
    }
  }

  /** How the last effect changes both. */
  lemma TextsStep(start: Scan, before: seq<Effect>, last: Effect)
    requires FirstPass(start, before + [last]).Ok?
    ensures FirstPass(start, before).Ok?
    ensures var a, b := FirstPass(start, before).value, FirstPass(start, before + [last]).value;
      && b.description == (if Describes(last) then last.description else a.description)
      && b.pop == (if last.Callback? then Some(last.uri) else a.pop)
  {
    assert (before + [last])[..|before|] == before;
  }

  /** The description and the callback are those of the last effects that have one. */
  lemma {:induction false} FirstPassKeepsDescription(start: Scan, effects: seq<Effect>)
    requires FirstPass(start, effects).Ok?
    ensures KeepsDescription(start.description, effects, FirstPass(start, effects).value.description)
  {
    if effects == [] {
    } else {
      var before, last := effects[..|effects| - 1], effects[|effects| - 1];
      assert effects == before + [last];
      TextsStep(start, before, last);
      FirstPassKeepsDescription(start, before);
      DescriptionStep(start.description, before, last, FirstPass(start, before).value.description);
    }
  }

  lemma {:induction false} FirstPassKeepsCallback(start: Scan, effects: seq<Effect>)
    requires FirstPass(start, effects).Ok?
    ensures KeepsCallback(start.pop, effects, FirstPass(start, effects).value.pop)
  {
    if effects == [] {
    } else {
      var before, last := effects[..|effects| - 1], effects[|effects| - 1];
      assert effects == before + [last];
      TextsStep(start, before, last);
      FirstPassKeepsCallback(start, before);
      CallbackStep(start.pop, before, last, FirstPass(start, before).value.pop);
    }
  }

  lemma ConcludedTexts(first: Result<Scan, ParseError>, second: Result<Extras, ParseError>,
                       hrn: Option<string>, proof: Option<string>)
    requires Concluded(first, second, hrn, proof).Ok?
    ensures first.Ok? && Concluded(first, second, hrn, proof).value.recipientDescription == first.value.description
    ensures Concluded(first, second, hrn, proof).value.popCallback == first.value.pop
  {
  }

  /** So are those of an accepted query. */
  lemma QueryKeepsLast(c: Codecs, network: Network, supportsPop: bool, methods: seq<PaymentMethod>, params: seq<string>,
                       hrn: Option<string>, proof: Option<string>)
    requires ParseQuery(c, network, supportsPop, Scan(methods, None, None), params, hrn, proof).Ok?
    ensures var r := ParseQuery(c, network, supportsPop, Scan(methods, None, None), params, hrn, proof).value;
      && KeepsDescription(None, Effects(c, network, supportsPop, params), r.recipientDescription)
      && KeepsCallback(None, Effects(c, network, supportsPop, params), r.popCallback)
  {
    var start, effects := Scan(methods, None, None), Effects(c, network, supportsPop, params);
    ConcludedTexts(FirstPass(start, effects), SecondPass(ExtraList(c, params)), hrn, proof);
    FirstPassKeepsDescription(start, effects);
    FirstPassKeepsCallback(start, effects);
  }

  // ----- Second pass

  /** What `amount`, `label` and `message` contribute to the second pass. */
  lemma SecondPassParameters(c: Codecs, param: string)
    ensures var v, x := ParamValue(param), ExtraOf(c, param);
      && (ParamKey(param) == AmountKey && v.None? ==> x == BadAmountIs(MissingValue, false))
      && (ParamKey(param) == AmountKey && v.Some? && c.btc(v.value).None? ==> x == BadAmountIs(BadAmount, true))
      && (forall sats :: ParamKey(param) == AmountKey && v.Some? && c.btc(v.value) == Some(sats) ==>
            x == AmountIs(Amount(sats * 1000 % 0x1_0000_0000_0000_0000)))
      && (ParamKey(param) == Label ==> x == LabelIs(v))
      && (ParamKey(param) == Message ==> x == MessageIs(v))
      && (ParamKey(param) !in {AmountKey, Label, Message} ==> x == Nothing)
  {
  }

  /** Why the parameter at `k` ends the second pass: it repeats one, or its own amount is missing or unreadable. */
  ghost predicate EndsSecondPass(list: seq<Extra>, k: nat, reason: InvalidReason)
    requires k < |list|
  {
    var before := list[..k];
    match list[k]
    case Nothing => false
    case AmountIs(_) => HasAmount(before) && reason == RepeatedParameter
    case BadAmountIs(error, onlyFirst) =>
      reason == if onlyFirst && HasAmount(before) then RepeatedParameter else error
    case LabelIs(_) => HasLabel(before) && reason == RepeatedParameter
    case MessageIs(_) => HasMessage(before) && reason == RepeatedParameter
  }

  lemma {:induction false} SecondPassFails(list: seq<Extra>)
    requires SecondPass(list).Err?
    ensures SecondPass(list).error.InvalidInstructions?
    ensures exists k: nat :: k < |list| && ExtrasFit(list[..k]) &&
                             EndsSecondPass(list, k, SecondPass(list).error.reason)
  {
    var n := |list| - 1;
    if SecondPass(list[..n]).Err? {
      SecondPassFails(list[..n]);
      var k: nat :| k < n && ExtrasFit(list[..n][..k]) &&
                    EndsSecondPass(list[..n], k, SecondPass(list[..n]).error.reason);
      assert list[..n][..k] == list[..k];
      assert EndsSecondPass(list, k, SecondPass(list).error.reason);
    } else {
      SecondPassAccepts(list[..n]);
      assert EndsSecondPass(list, n, SecondPass(list).error.reason);
    }
  }

  // ----- Which error a query ends with

  lemma {:induction false} FirstFailure(start: Scan, effects: seq<Effect>, k: nat)
    requires k < |effects| && effects[k].Fail? && NoneFails(effects[..k])
    ensures FirstPass(start, effects) == Err(effects[k].error)
  {
    FirstPassAccepts(start, effects[..k]);
    assert effects[..k + 1][..k] == effects[..k];
    FirstPassStops(start, effects, k + 1);
  }

  /** The first failing parameter, else the second pass, else having no method, else the amounts. */
  lemma QueryErrors(c: Codecs, network: Network, supportsPop: bool, start: Scan, params: seq<string>,
                    hrn: Option<string>, proof: Option<string>)
    ensures var r := ParseQuery(c, network, supportsPop, start, params, hrn, proof);
      var effects, list := Effects(c, network, supportsPop, params), ExtraList(c, params);
      && (forall k: nat :: k < |effects| && effects[k].Fail? && NoneFails(effects[..k]) ==> r == Err(effects[k].error))
      && (NoneFails(effects) && !ExtrasFit(list) ==> SecondPass(list).Err? && r == Err(SecondPass(list).error))
      && (NoneFails(effects) && ExtrasFit(list) ==>
            MethodsChecked(r, QueryMethods(c, network, supportsPop, start, params)))
  {
    var effects := Effects(c, network, supportsPop, params);
    FirstPassAccepts(start, effects);
    SecondPassAccepts(ExtraList(c, params));
    forall k: nat | k < |effects| && effects[k].Fail? && NoneFails(effects[..k])
      ensures FirstPass(start, effects) == Err(effects[k].error)
    {
      FirstFailure(start, effects, k);
    }
  }

  /** What the methods and their amounts make of a query whose parameters are all in order. */
  ghost predicate MethodsChecked(r: Parsed, methods: seq<PaymentMethod>) {
    && (methods == [] ==> r == Err(UnknownPaymentInstructions))
    && (methods != [] && AmountVerdict(methods) == Some(TooLarge) ==> r == Err(InvalidInstructions(AmountTooLarge)))
    && (forall e: AmountError :: methods != [] && AmountVerdict(methods) == Some(e) && e != TooLarge ==>
          r == Err(InconsistentInstructions(e)))
  }
}
