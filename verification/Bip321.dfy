/**
 * What the parser promises about BIP 321 URIs as a whole: exactly which queries are accepted, and
 * that unknown optional parameters never matter.
 */
module Bip321 {
  import opened Wrappers
  import opened Amounts
  import opened Text
  import opened Instructions
  import opened Parser

  // ----- The first pass: no parameter fails

  ghost predicate NoneFails(effects: seq<Effect>) {
    forall i :: 0 <= i < |effects| ==> !effects[i].Fail?
  }

  /** The methods that the parameters contribute, in order. */
  function Added(effects: seq<Effect>): seq<PaymentMethod> {
    if effects == [] then []
    else (if effects[0].Add? then [effects[0].paymentMethod] else []) + Added(effects[1..])
  }

  lemma {:induction false} AddedConcat(a: seq<Effect>, b: seq<Effect>)
    ensures Added(a + b) == Added(a) + Added(b)
  {
    if a == [] {
      assert a + b == b;
    } else {
      var head := if a[0].Add? then [a[0].paymentMethod] else [];
      AddedConcat(a[1..], b);
      assert Added(a + b) == head + Added(a[1..] + b) by {
        assert (a + b)[1..] == a[1..] + b;
      }
      assert head + (Added(a[1..]) + Added(b)) == (head + Added(a[1..])) + Added(b);
    }
  }

  /** It reports the first failure, and otherwise collects every method. */
  lemma {:induction false} FirstPassAccepts(start: Scan, effects: seq<Effect>)
    ensures FirstPass(start, effects).Ok? <==> NoneFails(effects)
    ensures FirstPass(start, effects).Ok? ==> FirstPass(start, effects).value.methods == start.methods + Added(effects)
    ensures FirstPass(start, effects).Err? ==>
            exists k :: 0 <= k < |effects| &&
                        effects[k] == Fail(FirstPass(start, effects).error) && NoneFails(effects[..k])
  {
    if effects == [] {
    } else {
      var n := |effects| - 1;
      FirstPassAccepts(start, effects[..n]);
      AddedConcat(effects[..n], effects[n..]);
      assert effects == effects[..n] + effects[n..];
      assert effects[n..][1..] == [];
      if FirstPass(start, effects[..n]).Err? {
        var k :| 0 <= k < n && effects[..n][k] == Fail(FirstPass(start, effects[..n]).error) &&
                 NoneFails(effects[..n][..k]);
        assert effects[..n][..k] == effects[..k];
        assert effects[k] == Fail(FirstPass(start, effects).error);
      }
    }
  }

  // ----- The second pass: each kind of parameter at most once

  /** A repeated label is tolerated only while it has no value; likewise a message. */
  ghost predicate ExtrasFit(list: seq<Extra>) {
    && (forall i :: 0 <= i < |list| ==> !list[i].BadAmountIs?)
    && (forall i, j :: 0 <= i < j < |list| ==> !(list[i].AmountIs? && list[j].AmountIs?))
    && (forall i, j :: 0 <= i < j < |list| && list[j].LabelIs? ==> !(list[i].LabelIs? && list[i].text.Some?))
    && (forall i, j :: 0 <= i < j < |list| && list[j].MessageIs? ==> !(list[i].MessageIs? && list[i].text.Some?))
  }

  ghost predicate HasAmount(list: seq<Extra>) {
    exists i :: 0 <= i < |list| && list[i].AmountIs?
  }

  ghost predicate HasLabel(list: seq<Extra>) {
    exists i :: 0 <= i < |list| && list[i].LabelIs? && list[i].text.Some?
  }

  ghost predicate HasMessage(list: seq<Extra>) {
    exists i :: 0 <= i < |list| && list[i].MessageIs? && list[i].text.Some?
  }

  lemma HasOneMore(before: seq<Extra>, last: Extra)
    ensures HasAmount(before + [last]) <==> HasAmount(before) || last.AmountIs?
    ensures HasLabel(before + [last]) <==> HasLabel(before) || (last.LabelIs? && last.text.Some?)
    ensures HasMessage(before + [last]) <==> HasMessage(before) || (last.MessageIs? && last.text.Some?)
  {
    var list := before + [last];
    assert list[|before|] == last;
    assert forall i :: 0 <= i < |before| ==> list[i] == before[i];
  }

  lemma FitOneMore(before: seq<Extra>, last: Extra)
    ensures ExtrasFit(before + [last]) <==>
            && ExtrasFit(before)
            && !last.BadAmountIs?
            && (last.AmountIs? ==> !HasAmount(before))
            && (last.LabelIs? ==> !HasLabel(before))
            && (last.MessageIs? ==> !HasMessage(before))
  {
    var list := before + [last];
    assert list[|before|] == last;
    assert forall i :: 0 <= i < |before| ==> list[i] == before[i];
  }

  lemma NotedAccepts(extras: Extras, last: Extra)
    ensures Noted(extras, last).Ok? <==>
            && !last.BadAmountIs?
            && (last.AmountIs? ==> extras.amount.None?)
            && (last.LabelIs? ==> extras.labelText.None?)
            && (last.MessageIs? ==> extras.messageText.None?)
    ensures Noted(extras, last).Ok? ==>
            && (Noted(extras, last).value.amount.Some? <==> extras.amount.Some? || last.AmountIs?)
            && (Noted(extras, last).value.labelText.Some? <==>
                  extras.labelText.Some? || (last.LabelIs? && last.text.Some?))
            && (Noted(extras, last).value.messageText.Some? <==>
                  extras.messageText.Some? || (last.MessageIs? && last.text.Some?))
  {
  }

  lemma {:induction false} SecondPassAccepts(list: seq<Extra>)
    ensures SecondPass(list).Ok? <==> ExtrasFit(list)
    ensures SecondPass(list).Ok? ==>
            && (SecondPass(list).value.amount.Some? <==> HasAmount(list))
            && (SecondPass(list).value.labelText.Some? <==> HasLabel(list))
            && (SecondPass(list).value.messageText.Some? <==> HasMessage(list))
  {
    if list == [] {
    } else {
      var before, last := list[..|list| - 1], list[|list| - 1];
      assert list == before + [last];
      SecondPassAccepts(before);
      HasOneMore(before, last);
      FitOneMore(before, last);
      if SecondPass(before).Ok? {
        NotedAccepts(SecondPass(before).value, last);
      }
    }
  }

  lemma {:induction false} SecondPassAmount(list: seq<Extra>, i: nat)
    requires SecondPass(list).Ok? && i < |list| && list[i].AmountIs?
    ensures SecondPass(list).value.amount == Some(list[i].amount)
  {
    var n := |list| - 1;
    if i < n {
      SecondPassAmount(list[..n], i);
    }
  }

  // ----- Acceptance of a whole query

  /** The methods of an accepted query: those of the body, then those of the parameters, all with the amount. */
  function QueryMethods(c: Codecs, network: Network, supportsPop: bool, start: Scan, params: seq<string>)
    : seq<PaymentMethod>
  {
    var extras := SecondPass(ExtraList(c, params));
    AllWithAmount(start.methods + Added(Effects(c, network, supportsPop, params)),
                  if extras.Ok? then extras.value.amount else None)
  }

  /** A query is accepted exactly when each parameter is, none is repeated, and the amounts are consistent. */
  lemma QueryAccepted(c: Codecs, network: Network, supportsPop: bool, start: Scan, params: seq<string>,
                      hrn: Option<string>, proof: Option<string>)
    ensures var r := ParseQuery(c, network, supportsPop, start, params, hrn, proof);
      var methods := QueryMethods(c, network, supportsPop, start, params);
      && (r.Ok? <==>
          && NoneFails(Effects(c, network, supportsPop, params))
          && ExtrasFit(ExtraList(c, params))
          && methods != []
          && Consistent(methods))
      && (r.Ok? ==> r.value.methods == methods)
  {
    FirstPassAccepts(start, Effects(c, network, supportsPop, params));
    SecondPassAccepts(ExtraList(c, params));
    VerdictIsConsistency(QueryMethods(c, network, supportsPop, start, params));
  }

  /** The required parameters that the parser knows. */
  predicate KnownRequired(k: string) {
    EqIgnoreCase(k, "req-bc") || EqIgnoreCase(k, "req-lightning") || EqIgnoreCase(k, "req-lno") ||
    EqIgnoreCase(k, "req-amount") || EqIgnoreCase(k, "req-label") || EqIgnoreCase(k, "req-message") ||
    EqIgnoreCase(k, "req-pop")
  }

  lemma NotPlain(k: string, name: string)
    requires HasPrefix(k, "req-") && |name| > 0
    requires LowerChar(name[0]) != 'r'
    ensures !EqIgnoreCase(k, name)
  {
    assert LowerChar(k[..4][0]) == LowerChar("req-"[0]);
  }

  /** A `req-` key is either one of the known ones or refused. */
  lemma RequiredKeys(k: string)
    requires HasPrefix(k, "req-")
    ensures KeyOf(k) == UnknownRequired <==> !KnownRequired(k)
    ensures KeyOf(k) != Unknown
  {
    NotPlain(k, "bc");
    NotPlain(k, "lightning");
    NotPlain(k, "lno");
    NotPlain(k, "amount");
    NotPlain(k, "label");
    NotPlain(k, "message");
    NotPlain(k, "pop");
  }

  function UriParameters(text: string): seq<string>
    requires HasPrefix(text, BTC_PREFIX)
  {
    match SplitOnce(text[|BTC_PREFIX|..], '?').1
    case None => []
    case Some(query) => Split(query, '&')
  }

  lemma AcceptedKey(c: Codecs, network: Network, supportsPop: bool, param: string)
    requires !EffectOf(c, network, supportsPop, param).Fail?
    ensures HasPrefix(SplitOnce(param, '=').0, "req-") ==> KnownRequired(SplitOnce(param, '=').0)
  {
    var k := SplitOnce(param, '=').0;
    if HasPrefix(k, "req-") {
      RequiredKeys(k);
    }
  }

  ghost predicate OneAmount(params: seq<string>) {
    forall i, j :: 0 <= i < j < |params| ==> ParamKey(params[i]) != AmountKey || ParamKey(params[j]) != AmountKey
  }

  /** An accepted query has no unknown required parameter, and at most one amount, which can be read. */
  lemma AcceptedParameters(c: Codecs, network: Network, supportsPop: bool, start: Scan, params: seq<string>,
                           hrn: Option<string>, proof: Option<string>)
    requires ParseQuery(c, network, supportsPop, start, params, hrn, proof).Ok?
    ensures forall p :: p in params && HasPrefix(SplitOnce(p, '=').0, "req-") ==> KnownRequired(SplitOnce(p, '=').0)
    ensures forall p :: p in params && ParamKey(p) == AmountKey ==>
              ParamValue(p).Some? && c.btc(ParamValue(p).value).Some?
    ensures OneAmount(params)
  {
    var effects, list := Effects(c, network, supportsPop, params), ExtraList(c, params);
    FirstPassAccepts(start, effects);
    SecondPassAccepts(list);
    forall p | p in params && HasPrefix(SplitOnce(p, '=').0, "req-")
      ensures KnownRequired(SplitOnce(p, '=').0)
    {
      var i :| 0 <= i < |params| && p == params[i];
      assert !effects[i].Fail?;
      AcceptedKey(c, network, supportsPop, p);
    }
    AmountParameters(c, params, list);
  }

  lemma AmountParameters(c: Codecs, params: seq<string>, list: seq<Extra>)
    requires list == ExtraList(c, params) && ExtrasFit(list)
    ensures forall p :: p in params && ParamKey(p) == AmountKey ==>
              ParamValue(p).Some? && c.btc(ParamValue(p).value).Some?
    ensures OneAmount(params)
  {
    forall i | 0 <= i < |params| && ParamKey(params[i]) == AmountKey
      ensures list[i].AmountIs? && ParamValue(params[i]).Some? && c.btc(ParamValue(params[i]).value).Some?
    {
      assert list[i] == ExtraOf(c, params[i]);
    }
  }

  /** The amount that the second pass finds is that of the amount parameter, or none if there is no such parameter. */
  lemma AmountFound(c: Codecs, params: seq<string>, list: seq<Extra>)
    requires list == ExtraList(c, params) && SecondPass(list).Ok?
    ensures forall p :: p in params && ParamKey(p) == AmountKey ==>
              ParamValue(p).Some? && c.btc(ParamValue(p).value).Some? &&
              SecondPass(list).value.amount == Some(FromSatsWrapping(c.btc(ParamValue(p).value).value))
    ensures (forall p :: p in params ==> ParamKey(p) != AmountKey) ==> SecondPass(list).value.amount.None?
  {
    SecondPassAccepts(list);
    AmountParameters(c, params, list);
    forall p | p in params && ParamKey(p) == AmountKey
      ensures SecondPass(list).value.amount == Some(FromSatsWrapping(c.btc(ParamValue(p).value).value))
    {
      var i :| 0 <= i < |params| && p == params[i];
      SecondPassAmount(list, i);
    }
    if HasAmount(list) {
      var i :| 0 <= i < |list| && list[i].AmountIs?;
      assert ParamKey(params[i]) == AmountKey && params[i] in params;
    }
  }

  /** The amount parameter of an accepted query is what every on-chain method asks for. */
  lemma AmountApplied(c: Codecs, network: Network, supportsPop: bool, start: Scan, params: seq<string>,
                      hrn: Option<string>, proof: Option<string>)
    requires forall m :: m in start.methods && m.OnChain? ==> m.required == None
    requires ParseQuery(c, network, supportsPop, start, params, hrn, proof).Ok?
    ensures var methods := ParseQuery(c, network, supportsPop, start, params, hrn, proof).value.methods;
      && (forall p, m :: p in params && ParamKey(p) == AmountKey && m in methods && m.OnChain? ==>
            ParamValue(p).Some? && c.btc(ParamValue(p).value).Some? &&
            m.required == Some(FromSatsWrapping(c.btc(ParamValue(p).value).value)))
      && ((forall p :: p in params ==> ParamKey(p) != AmountKey) ==>
            forall m :: m in methods && m.OnChain? ==> m.required == None)
  {
    AmountFound(c, params, ExtraList(c, params));
    EffectsUnpatched(c, network, supportsPop, params);
    UnpatchedOnChain(start, Effects(c, network, supportsPop, params));
  }

  /**
   * The amounts are checked after the conversion to milli-satoshis, which wraps. So an accepted query with
   * an on-chain method asks for at most 21 million bitcoin exactly when the written amount can be converted.
   */
  lemma WrittenAmountBounded(c: Codecs, network: Network, supportsPop: bool, start: Scan, params: seq<string>,
                             hrn: Option<string>, proof: Option<string>, p: string, m: PaymentMethod)
    requires forall m :: m in start.methods && m.OnChain? ==> m.required == None
    requires ParseQuery(c, network, supportsPop, start, params, hrn, proof).Ok?
    requires m in ParseQuery(c, network, supportsPop, start, params, hrn, proof).value.methods && m.OnChain?
    requires p in params && ParamKey(p) == AmountKey
    ensures ParamValue(p).Some? && c.btc(ParamValue(p).value).Some? && m.required.Some?
    ensures var sats := c.btc(ParamValue(p).value).value;
      && (sats * 1000 <= MAX_MSATS <==> sats <= U64_MAX / 1000)
      && (m.required.value.msats == sats * 1000 <==> sats <= U64_MAX / 1000)
  {
    AmountApplied(c, network, supportsPop, start, params, hrn, proof);
    QueryAccepted(c, network, supportsPop, start, params, hrn, proof);
    FromSatsExact(c.btc(ParamValue(p).value).value);
    assert m.RequiredAmount().value.msats <= MAX_MSATS;
  }

  /** The promises about parameters, read off the text of an accepted URI. */
  lemma AcceptedUri(c: Codecs, text: string, network: Network, supportsPop: bool, hrn: Option<string>,
                    proof: Option<string>)
    requires HasPrefix(text, BTC_PREFIX)
    requires ParseResolved(c, text, network, supportsPop, hrn, proof).Ok?
    ensures var params := UriParameters(text);
      && (forall p :: p in params && HasPrefix(SplitOnce(p, '=').0, "req-") ==> KnownRequired(SplitOnce(p, '=').0))
      && (forall p :: p in params && ParamKey(p) == AmountKey ==>
            ParamValue(p).Some? && c.btc(ParamValue(p).value).Some?)
      && OneAmount(params)
  {
    var (body, query) := SplitOnce(text[|BTC_PREFIX|..], '?');
    if query.Some? {
      AcceptedParameters(c, network, supportsPop, Body(c, network, body).value, UriParameters(text), hrn, proof);
    }
  }

  // ----- Forward compatibility

  /** Neither known nor required. */
  predicate Ignorable(param: string) {
    ParamKey(param) == Unknown && '&' !in param
  }

  lemma IgnorableHasNoEffect(c: Codecs, network: Network, supportsPop: bool, param: string)
    requires Ignorable(param)
    ensures EffectOf(c, network, supportsPop, param) == Skip && ExtraOf(c, param) == Nothing
  {
  }

  lemma {:induction false} SkipInFirstPass(start: Scan, a: seq<Effect>, b: seq<Effect>)
    ensures FirstPass(start, a + [Skip] + b) == FirstPass(start, a + b)
    decreases |b|
  {
    if b == [] {
      assert a + b == a && (a + [Skip] + b)[..|a|] == a;
    } else {
      var n := |b| - 1;
      SkipInFirstPass(start, a, b[..n]);
      assert (a + [Skip] + b)[..|a| + 1 + n] == a + [Skip] + b[..n];
      assert (a + b)[..|a| + n] == a + b[..n];
    }
  }

  lemma {:induction false} NothingInSecondPass(a: seq<Extra>, b: seq<Extra>)
    ensures SecondPass(a + [Nothing] + b) == SecondPass(a + b)
    decreases |b|
  {
    if b == [] {
      assert a + b == a && (a + [Nothing] + b)[..|a|] == a;
    } else {
      var n := |b| - 1;
      NothingInSecondPass(a, b[..n]);
      assert (a + [Nothing] + b)[..|a| + 1 + n] == a + [Nothing] + b[..n];
      assert (a + b)[..|a| + n] == a + b[..n];
    }
  }

  lemma EffectsConcat(c: Codecs, network: Network, supportsPop: bool, a: seq<string>, b: seq<string>)
    ensures Effects(c, network, supportsPop, a + b) ==
            Effects(c, network, supportsPop, a) + Effects(c, network, supportsPop, b)
    ensures ExtraList(c, a + b) == ExtraList(c, a) + ExtraList(c, b)
  {
    assert forall i :: 0 <= i < |a| ==> (a + b)[i] == a[i];
    assert forall i :: 0 <= i < |b| ==> (a + b)[|a| + i] == b[i];
  }

  lemma IgnorableEffects(c: Codecs, network: Network, supportsPop: bool, param: string)
    requires Ignorable(param)
    ensures Effects(c, network, supportsPop, [param]) == [Skip] && ExtraList(c, [param]) == [Nothing]
  {
    IgnorableHasNoEffect(c, network, supportsPop, param);
  }

  lemma IgnorableInPasses(c: Codecs, network: Network, supportsPop: bool, start: Scan,
                          a: seq<string>, param: string, b: seq<string>)
    requires Ignorable(param)
    ensures FirstPass(start, Effects(c, network, supportsPop, a + [param] + b)) ==
            FirstPass(start, Effects(c, network, supportsPop, a + b))
    ensures SecondPass(ExtraList(c, a + [param] + b)) == SecondPass(ExtraList(c, a + b))
  {
    IgnorableEffects(c, network, supportsPop, param);
    EffectsConcat(c, network, supportsPop, a, b);
    EffectsConcat(c, network, supportsPop, a, [param]);
    EffectsConcat(c, network, supportsPop, a + [param], b);
    SkipInFirstPass(start, Effects(c, network, supportsPop, a), Effects(c, network, supportsPop, b));
    NothingInSecondPass(ExtraList(c, a), ExtraList(c, b));
  }

  lemma IgnorableInQuery(c: Codecs, network: Network, supportsPop: bool, start: Scan,
                         a: seq<string>, param: string, b: seq<string>, hrn: Option<string>, proof: Option<string>)
    requires Ignorable(param)
    ensures ParseQuery(c, network, supportsPop, start, a + [param] + b, hrn, proof) ==
            ParseQuery(c, network, supportsPop, start, a + b, hrn, proof)
  {
    IgnorableInPasses(c, network, supportsPop, start, a, param, b);
  }

  /** `scheme`, a body and a list of parameters, as text. */
  function UriText(scheme: string, body: string, params: seq<string>): string
    requires |params| > 0
  {
    scheme + (body + ['?'] + Join(params, '&'))
  }

  lemma UriTextParses(c: Codecs, network: Network, supportsPop: bool, scheme: string, body: string, params: seq<string>,
                      hrn: Option<string>, proof: Option<string>)
    requires EqIgnoreCase(scheme, BTC_PREFIX) && '?' !in body
    requires |params| > 0 && forall p :: p in params ==> '&' !in p
    ensures ParseResolved(c, UriText(scheme, body, params), network, supportsPop, hrn, proof) ==
            match Body(c, network, body)
            case Err(e) => Err(e)
            case Ok(start) => ParseQuery(c, network, supportsPop, start, params, hrn, proof)
  {
    var text := UriText(scheme, body, params);
    assert text[..|BTC_PREFIX|] == scheme && text[|BTC_PREFIX|..] == body + ['?'] + Join(params, '&');
    SplitOnceAt(body, '?', Join(params, '&'));
    SplitJoin(params, '&');
  }

  lemma AmountKeyRead()
    ensures KeyOf("AMOUNT") == AmountKey
  {
    assert LowerChar("AMOUNT"[0]) != LowerChar("req-bc"[0]);
    assert EqIgnoreCase("AMOUNT", "amount");
  }

  /** The smallest number of satoshis whose conversion wraps; more than the supply. */
  const WRAPPING_SATS: U64 := 18446744073709552

  lemma FirstToWrap()
    ensures WRAPPING_SATS * 1000 > MAX_MSATS && FromSatsWrapping(WRAPPING_SATS) == Amount(384)
    ensures forall sats: U64 :: sats < WRAPPING_SATS ==> FromSatsWrapping(sats).msats == sats * 1000
  {
  }

  /** A URI that asks for this much, to any address, is accepted, and taken to ask for 384 milli-satoshis. */
  lemma WrittenAmountWraps(c: Codecs, network: Network, supportsPop: bool, body: string, a: Address, v: string,
                           hrn: Option<string>, proof: Option<string>)
    requires body != [] && '?' !in body && c.address(body) == Some(a) && network in a.networks
    requires '&' !in v && c.btc(v) == Some(WRAPPING_SATS)
    ensures ParseResolved(c, UriText("bitcoin:", body, ["AMOUNT=" + v]), network, supportsPop, hrn, proof) ==
            Ok(PaymentInstructions(None, [OnChain(Some(Amount(384)), a)], None, hrn, proof))
  {
    UriTextParses(c, network, supportsPop, "bitcoin:", body, ["AMOUNT=" + v], hrn, proof);
    FirstToWrap();
    AmountParameterRead(c, network, supportsPop, v);
    LoneAmount(a, Amount(384), hrn, proof);
  }

  lemma AmountParameterRead(c: Codecs, network: Network, supportsPop: bool, v: string)
    requires c.btc(v).Some?
    ensures Effects(c, network, supportsPop, ["AMOUNT=" + v]) == [Skip]
    ensures ExtraList(c, ["AMOUNT=" + v]) == [AmountIs(FromSatsWrapping(c.btc(v).value))]
  {
    var p := "AMOUNT=" + v;
    AmountKeyRead();
    assert p == "AMOUNT" + ['='] + v;
    SplitOnceAt("AMOUNT", '=', v);
    assert EffectOf(c, network, supportsPop, p) == Skip;
    assert ExtraOf(c, p) == AmountIs(FromSatsWrapping(c.btc(v).value));
  }

  lemma LoneAmount(a: Address, amount: Amount, hrn: Option<string>, proof: Option<string>)
    requires amount.msats <= MAX_MSATS
    ensures var start := Scan([OnChain(None, a)], None, None);
      Concluded(FirstPass(start, [Skip]), SecondPass([AmountIs(amount)]), hrn, proof) ==
      Ok(PaymentInstructions(None, [OnChain(Some(amount), a)], None, hrn, proof))
  {
    var methods := [OnChain(Some(amount), a)];
    assert [Skip][..0] == [] && [AmountIs(amount)][..0] == [];
    assert AllWithAmount([OnChain(None, a)], Some(amount)) == methods;
    VerdictIsConsistency(methods);
  }

  // ----- Amounts that concern nobody

  function WithoutAmount(extras: Result<Extras, ParseError>): Result<Extras, ParseError> {
    match extras
    case Ok(e) => Ok(e.(amount := None))
    case Err(e) => Err(e)
  }

  /** Which amount it is matters only for the amount found. */
  lemma {:induction false} AmountInSecondPass(a: seq<Extra>, x: Amount, y: Amount, b: seq<Extra>)
    ensures var one, other := SecondPass(a + [AmountIs(x)] + b), SecondPass(a + [AmountIs(y)] + b);
      && WithoutAmount(one) == WithoutAmount(other)
      && (one.Ok? ==> one.value.amount.Some? && other.value.amount.Some?)
    decreases |b|
  {
    var one, other := a + [AmountIs(x)] + b, a + [AmountIs(y)] + b;
    if b == [] {
      assert one[..|a|] == a && other[..|a|] == a;
    } else {
      var n := |b| - 1;
      AmountInSecondPass(a, x, y, b[..n]);
      assert one[..|a| + 1 + n] == a + [AmountIs(x)] + b[..n];
      assert other[..|a| + 1 + n] == a + [AmountIs(y)] + b[..n];
    }
  }

  predicate ReadableAmount(c: Codecs, param: string) {
    ParamKey(param) == AmountKey && ParamValue(param).Some? && c.btc(ParamValue(param).value).Some?
  }

  /**
   * Where every method is a lightning one, the amount parameter has to be readable and is then ignored: it
   * is compared with no invoice, and any other readable amount gives the same result.
   */
  lemma AmountIgnored(c: Codecs, network: Network, supportsPop: bool, start: Scan, a: seq<string>, p: string, q: string,
                      b: seq<string>, hrn: Option<string>, proof: Option<string>)
    requires ReadableAmount(c, p) && ReadableAmount(c, q)
    requires forall m :: m in start.methods ==> m.IsLightning()
    requires forall e :: e in Effects(c, network, supportsPop, a + [p] + b) && e.Add? ==> e.paymentMethod.IsLightning()
    ensures ParseQuery(c, network, supportsPop, start, a + [p] + b, hrn, proof) ==
            ParseQuery(c, network, supportsPop, start, a + [q] + b, hrn, proof)
  {
    var effects := Effects(c, network, supportsPop, a + [p] + b);
    AmountEffects(c, network, supportsPop, a, p, b);
    AmountEffects(c, network, supportsPop, a, q, b);
    AmountInSecondPass(ExtraList(c, a), ExtraOf(c, p).amount, ExtraOf(c, q).amount, ExtraList(c, b));
    LightningOnly(start, effects);
    AmountUnused(FirstPass(start, effects), SecondPass(ExtraList(c, a + [p] + b)),
                 SecondPass(ExtraList(c, a + [q] + b)), hrn, proof);
  }

  lemma AmountUnused(first: Result<Scan, ParseError>, one: Result<Extras, ParseError>,
                     other: Result<Extras, ParseError>, hrn: Option<string>, proof: Option<string>)
    requires WithoutAmount(one) == WithoutAmount(other)
    requires first.Ok? ==> forall m :: m in first.value.methods ==> m.IsLightning()
    ensures Concluded(first, one, hrn, proof) == Concluded(first, other, hrn, proof)
  {
    if first.Ok? && one.Ok? {
      NothingPatched(first.value.methods, one.value.amount);
      NothingPatched(first.value.methods, other.value.amount);
    }
  }

  lemma NothingPatched(methods: seq<PaymentMethod>, amount: Option<Amount>)
    requires forall m :: m in methods ==> m.IsLightning()
    ensures AllWithAmount(methods, amount) == methods
  {
    forall i | 0 <= i < |methods|
      ensures WithAmount(methods[i], amount) == methods[i]
    {
      assert methods[i] in methods;
    }
  }

  lemma AmountEffects(c: Codecs, network: Network, supportsPop: bool, a: seq<string>, p: string, b: seq<string>)
    requires ReadableAmount(c, p)
    ensures Effects(c, network, supportsPop, a + [p] + b) ==
            Effects(c, network, supportsPop, a) + [Skip] + Effects(c, network, supportsPop, b)
    ensures ExtraOf(c, p).AmountIs?
    ensures ExtraList(c, a + [p] + b) == ExtraList(c, a) + [ExtraOf(c, p)] + ExtraList(c, b)
  {
    EffectsConcat(c, network, supportsPop, a + [p], b);
    EffectsConcat(c, network, supportsPop, a, [p]);
    assert EffectOf(c, network, supportsPop, p) == Skip;
    assert Effects(c, network, supportsPop, [p]) == [Skip] && ExtraList(c, [p]) == [ExtraOf(c, p)];
  }

  lemma LightningOnly(start: Scan, effects: seq<Effect>)
    requires forall m :: m in start.methods ==> m.IsLightning()
    requires forall e :: e in effects && e.Add? ==> e.paymentMethod.IsLightning()
    ensures FirstPass(start, effects).Ok? ==>
              forall m :: m in FirstPass(start, effects).value.methods ==> m.IsLightning()
  {
    FirstPassAccepts(start, effects);
    AddedAre(effects);
  }

  lemma {:induction false} AddedAre(effects: seq<Effect>)
    ensures forall m :: m in Added(effects) ==> exists e :: e in effects && e.Add? && e.paymentMethod == m
  {
    if effects == [] {
    } else {
      AddedAre(effects[1..]);
      assert effects == [effects[0]] + effects[1..];
      assert effects[0] in effects;
    }
  }

  // ----- Forward compatibility of whole URIs

  /** Inserting an unknown optional parameter anywhere in a query changes nothing. */
  lemma ForwardCompatible(c: Codecs, network: Network, supportsPop: bool, scheme: string, body: string,
                          a: seq<string>, param: string, b: seq<string>, hrn: Option<string>, proof: Option<string>)
    requires EqIgnoreCase(scheme, BTC_PREFIX) && '?' !in body
    requires |a + b| > 0 && forall p :: p in a + b ==> '&' !in p
    requires Ignorable(param)
    ensures ParseResolved(c, UriText(scheme, body, a + [param] + b), network, supportsPop, hrn, proof) ==
            ParseResolved(c, UriText(scheme, body, a + b), network, supportsPop, hrn, proof)
  {
    UriTextParses(c, network, supportsPop, scheme, body, a + [param] + b, hrn, proof);
    UriTextParses(c, network, supportsPop, scheme, body, a + b, hrn, proof);
    var start := Body(c, network, body);
    if start.Ok? {
      IgnorableInQuery(c, network, supportsPop, start.value, a, param, b, hrn, proof);
    }
  }

  /** So does giving a query of only such a parameter to a URI that had none. */
  lemma ForwardCompatibleNewQuery(c: Codecs, network: Network, supportsPop: bool, scheme: string, body: string,
                                  param: string, hrn: Option<string>, proof: Option<string>)
    requires EqIgnoreCase(scheme, BTC_PREFIX) && '?' !in body
    requires Ignorable(param)
    ensures ParseResolved(c, UriText(scheme, body, [param]), network, supportsPop, hrn, proof) ==
            ParseResolved(c, scheme + body, network, supportsPop, hrn, proof)
  {
    UriTextParses(c, network, supportsPop, scheme, body, [param], hrn, proof);
    assert (scheme + body)[..|BTC_PREFIX|] == scheme && (scheme + body)[|BTC_PREFIX|..] == body;
    SplitOnceAbsent(body, '?');
    var start := Body(c, network, body);
    if start.Ok? {
      EmptyQuery(c, network, supportsPop, start.value, param, hrn, proof);
    }
  }

  lemma EmptyQuery(c: Codecs, network: Network, supportsPop: bool, start: Scan, param: string,
                   hrn: Option<string>, proof: Option<string>)
    requires Ignorable(param)
    requires start == Scan([], None, None) ||
             exists address :: start == Scan([OnChain(None, address)], None, None)
    ensures ParseQuery(c, network, supportsPop, start, [param], hrn, proof) ==
            if start.methods == [] then Err(UnknownPaymentInstructions)
            else Ok(PaymentInstructions(None, start.methods, None, hrn, proof))
  {
    IgnorableInQuery(c, network, supportsPop, start, [], param, [], hrn, proof);
    assert [] + [param] + [] == [param];
    var methods := AllWithAmount(start.methods, None);
    assert methods == start.methods;
    if start.methods != [] {
      assert Consistent(methods);
      VerdictIsConsistency(methods);
    }
  }
}
