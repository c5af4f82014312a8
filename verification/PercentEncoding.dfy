/** The %-decoder for proof-of-payment callback URIs (`un_percent_encode`). */
module PercentEncoding {
  import opened Wrappers
  import opened Digits

  function Prepend(head: string, rest: Option<string>): (r: Option<string>)
    ensures head == [] ==> r == rest
    ensures rest == Some([]) ==> r == Some(head)
  {
    match rest
    case Some(tail) =>
      assert head == [] ==> head + tail == tail;
      assert tail == [] ==> head + tail == head;
      Some(head + tail)
    case None => None
  }

  lemma PrependConcat(a: string, b: string, rest: Option<string>)
    ensures Prepend(a, Prepend(b, rest)) == Prepend(a + b, rest)
  {
    if rest.Some? {
      assert a + (b + rest.value) == a + b + rest.value;
    }
  }

  /** The bytes that `s` stands for, before they are checked to be UTF-8. */
  function Decode(s: string): Option<string> {
    if s == [] then Some([])
    else if s[0] != '%' then Prepend([s[0]], Decode(s[1..]))
    else if |s| < 3 || !IsDigit(s[1]) || !IsDigit(s[2]) then None
    else Prepend([(16 * DigitValue(s[1]) + DigitValue(s[2])) as char], Decode(s[3..]))
  }

  /** Each `%` is followed by two decimal digits. */
  predicate WellEscaped(s: string) {
    forall i :: 0 <= i < |s| && s[i] == '%' ==> i + 2 < |s| && IsDigit(s[i + 1]) && IsDigit(s[i + 2])
  }

  /** Section 2.1 of RFC 3986: an escape is `%` and two hexadecimal digits of either case. */
  function RfcDecode(s: string): Option<string> {
    if s == [] then Some([])
    else if s[0] != '%' then Prepend([s[0]], RfcDecode(s[1..]))
    else if |s| < 3 || HexValue(s[1]).None? || HexValue(s[2]).None? then None
    else Prepend([(16 * HexValue(s[1]).value + HexValue(s[2]).value) as char], RfcDecode(s[3..]))
  }

  function Encode(s: string): string {
    if s == [] then [] else (if s[0] == '%' then "%25" else [s[0]]) + Encode(s[1..])
  }

  /** Decoding succeeds exactly on text whose escapes are all decimal. */
  lemma {:induction false} DecodeSucceeds(s: string)
    ensures Decode(s).Some? <==> WellEscaped(s)
  {
    if s == [] {
    } else if s[0] != '%' {
      DecodeSucceeds(s[1..]);
      assert WellEscaped(s) ==> WellEscaped(s[1..]) by {
        assert forall i :: 0 <= i < |s[1..]| ==> s[1..][i] == s[i + 1];
      }
      if WellEscaped(s[1..]) {
        forall i | 0 <= i < |s| && s[i] == '%'
          ensures i + 2 < |s| && IsDigit(s[i + 1]) && IsDigit(s[i + 2])
        {
          assert s[1..][i - 1] == '%';
          assert IsDigit(s[1..][i]) && IsDigit(s[1..][i + 1]);
        }
      }
    } else if |s| < 3 || !IsDigit(s[1]) || !IsDigit(s[2]) {
    } else {
      DecodeSucceeds(s[3..]);
      assert WellEscaped(s) ==> WellEscaped(s[3..]) by {
        assert forall i :: 0 <= i < |s[3..]| ==> s[3..][i] == s[i + 3];
      }
      if WellEscaped(s[3..]) {
        forall i | 0 <= i < |s| && s[i] == '%'
          ensures i + 2 < |s| && IsDigit(s[i + 1]) && IsDigit(s[i + 2])
        {
          if i > 0 {
            assert i >= 3;
            assert s[3..][i - 3] == '%';
            assert IsDigit(s[3..][i - 2]) && IsDigit(s[3..][i - 1]);
          }
        }
      }
    }
  }

  /** Decoding distributes over concatenation when the cut is not inside an escape. */
  lemma {:induction false} DecodeConcat(a: string, b: string)
    requires Decode(a).Some?
    ensures Decode(a + b) == Prepend(Decode(a).value, Decode(b))
  {
    if a == [] {
      assert a + b == b;
    } else {
      var n := if a[0] == '%' then 3 else 1;
      DecodeConcat(a[n..], b);
      assert (a + b)[n..] == a[n..] + b;
      PrependConcat(Decode(a).value[..1], Decode(a[n..]).value, Decode(b));
    }
  }

  /** Decoding undoes the encoder that escapes only the percent sign. */
  lemma {:induction false} DecodeEncode(s: string)
    ensures Decode(Encode(s)) == Some(s)
  {
    if s == [] {
    } else {
      DecodeEncode(s[1..]);
      var head := if s[0] == '%' then "%25" else [s[0]];
      assert Decode(head) == Some([s[0]]) by {
        assert s[0] == '%' ==> head[3..] == [];
        assert s[0] != '%' ==> head[1..] == [];
      }
      DecodeConcat(head, Encode(s[1..]));
      assert s == [s[0]] + s[1..];
    }
  }

  /** Where it succeeds the decoder agrees with RFC 3986. */
  lemma {:induction false} DecodeAgreesWithRfc(s: string)
    requires Decode(s).Some?
    ensures RfcDecode(s) == Decode(s)
  {
    if s == [] {
    } else {
      DecodeAgreesWithRfc(s[(if s[0] == '%' then 3 else 1)..]);
    }
  }

  /** It covers strictly less: hexadecimal letters are refused. */
  lemma HexLettersRefused()
    ensures Decode("%2a") == None && RfcDecode("%2a") == Some("*")
  {
    assert "%2a"[3..] == [];
    assert HexValue('2') == Some(2) && HexValue('a') == Some(10);
    assert 42 as char == '*';
  }

  /** The value that `UnPercentEncode` computes. */
  function Unescaped(encoded: string, validUtf8: string -> bool): Option<string> {
    match Decode(encoded)
    case Some(bytes) => if validUtf8(bytes) then Some(bytes) else None
    case None => None
  }

  /** `un_percent_encode`, byte by byte; `validUtf8` is the check of `String::from_utf8`. */
  method UnPercentEncode(encoded: string, validUtf8: string -> bool) returns (decoded: Option<string>)
    ensures decoded == Unescaped(encoded, validUtf8)
  {
    var res := [];
    var next := 0;
    assert encoded[0..] == encoded;
    while next < |encoded|
      invariant 0 <= next <= |encoded|
      invariant Decode(encoded) == Prepend(res, Decode(encoded[next..]))
    {
      var b := encoded[next];
      if b == '%' {
        if next + 1 >= |encoded| || next + 2 >= |encoded| {
          return None;
        }
        var high, low := encoded[next + 1], encoded[next + 2];
        if high > '9' || high < '0' || low > '9' || low < '0' {
          return None;
        }
        assert encoded[next..][3..] == encoded[next + 3..];
        var byte := (16 * DigitValue(high) + DigitValue(low)) as char;
        PrependConcat(res, [byte], Decode(encoded[next + 3..]));
        res := res + [byte];
        next := next + 3;
      } else {
        assert encoded[next..][1..] == encoded[next + 1..];
        PrependConcat(res, [b], Decode(encoded[next + 1..]));
        res := res + [b];
        next := next + 1;
      }
    }
    assert encoded[next..] == [];
    decoded := if validUtf8(res) then Some(res) else None;
  }

  /** The whole contract of `un_percent_encode` in one place. */
  lemma UnescapedSucceeds(encoded: string, validUtf8: string -> bool)
    ensures Unescaped(encoded, validUtf8).Some? <==>
            WellEscaped(encoded) && validUtf8(RfcDecode(encoded).GetOr([]))
    ensures validUtf8(encoded) ==> Unescaped(Encode(encoded), validUtf8) == Some(encoded)
  {
    DecodeSucceeds(encoded);
    DecodeEncode(encoded);
    if WellEscaped(encoded) {
      DecodeAgreesWithRfc(encoded);
    }
  }
}
