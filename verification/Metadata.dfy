/** Payment ids and transaction metadata, and the text keys under which they are persisted (store.rs). */
module Metadata {
  import opened Wrappers
  import opened Amounts
  import opened Digits

  type Byte = x: int | 0 <= x < 256

  type Bytes32 = b: seq<Byte> | |b| == 32 witness seq(32, _ => 0)

  /** A UUID, as the number that its 16 bytes spell. */
  type CustodialPaymentId = x: int | 0 <= x < 0x1_0000_0000_0000_0000_0000_0000_0000_0000

  datatype PaymentId = Lightning(hash: Bytes32) | Custodial(id: CustodialPaymentId)

  datatype PaymentType =
    | OutgoingLightningBolt12(preimage: Option<Bytes32>)
    | OutgoingLightningBolt11(preimage: Option<Bytes32>)
    | OutgoingOnChain
    | IncomingOnChain
    | IncomingLightning

  datatype TxType =
    | TransferToNonCustodial(custodialPayment: CustodialPaymentId, lightningPayment: Bytes32, trigger: PaymentId)
    | PaymentTriggeringTransferToNonCustodial(ty: PaymentType)
    | Payment(ty: PaymentType)

  /** `time` is the duration since the epoch. */
  datatype TxMetadata = TxMetadata(time: nat, ty: TxType)

  datatype TxStatus = Pending | Completed | Failed

  /** An entry of the custodial service's payment list. */
  datatype CustodialPayment = CustodialPayment(
    id: CustodialPaymentId, amount: Amount, fee: Amount, status: TxStatus, outbound: bool)

  datatype LightningKind = Bolt11(hash: Bytes32, preimage: Option<Bytes32>)
                         | Bolt11Jit(hash: Bytes32, preimage: Option<Bytes32>)
                         | Bolt12Offer(preimage: Option<Bytes32>)
                         | Bolt12Refund(preimage: Option<Bytes32>)
                         | Spontaneous(preimage: Option<Bytes32>)
                         | OnChainPayment

  /** An entry of the lightning wallet's payment list. */
  datatype LightningPayment = LightningPayment(
    id: Bytes32, kind: LightningKind, status: TxStatus, outbound: bool, amountMsats: Option<U64>, updated: nat)

  /** How the store writes its keys and values, and reads them back. */
  datatype Codec = Codec(
    keyText: PaymentId -> string,
    readKey: string -> Option<PaymentId>,
    encode: TxMetadata -> seq<Byte>,
    decode: seq<Byte> -> Option<TxMetadata>)
  {
    /** Reading undoes writing. */
    ghost predicate Lawful() {
      && (forall id: PaymentId :: readKey(keyText(id)) == Some(id))
      && (forall metadata: TxMetadata :: decode(encode(metadata)) == Some(metadata))
    }
  }

  /** The external text form of UUIDs. */
  datatype UuidText = UuidText(write: CustodialPaymentId -> string, read: string -> Option<CustodialPaymentId>) {
    ghost predicate Lawful() {
      forall id: CustodialPaymentId :: write(id) != [] && read(write(id)) == Some(id)
    }
  }

  function Hex(bytes: seq<Byte>): string {
    if bytes == [] then [] else [HexDigit(bytes[0] / 16), HexDigit(bytes[0] % 16)] + Hex(bytes[1..])
  }

  /** Reads hexadecimal digits of either case, two to a byte. */
  function UnHex(s: string): Option<seq<Byte>> {
    if s == [] then Some([])
    else if |s| == 1 || HexValue(s[0]).None? || HexValue(s[1]).None? then None
    else
      match UnHex(s[2..])
      case Some(rest) => Some([16 * HexValue(s[0]).value + HexValue(s[1]).value] + rest)
      case None => None
  }

  lemma {:induction false} UnHexHex(bytes: seq<Byte>)
    ensures UnHex(Hex(bytes)) == Some(bytes)
  {
    if bytes == [] {
    } else {
      UnHexHex(bytes[1..]);
      assert Hex(bytes)[2..] == Hex(bytes[1..]);
      assert bytes == [bytes[0]] + bytes[1..];
    }
  }

  /** `Display` for `PaymentId`. */
  function KeyText(uuids: UuidText, id: PaymentId): string {
    match id
    case Lightning(hash) => "LN-" + Hex(hash)
    case Custodial(uuid) => "CU-" + uuids.write(uuid)
  }

  /** `FromStr` for `PaymentId`. */
  function ReadKey(uuids: UuidText, s: string): Option<PaymentId> {
    if |s| < 4 then None
    else if s[..3] == "LN-" then
      (match UnHex(s[3..])
       case Some(bytes) => if |bytes| == 32 then Some(Lightning(bytes)) else None
       case None => None)
    else if s[..3] == "CU-" then
      (match uuids.read(s[3..])
       case Some(uuid) => Some(Custodial(uuid))
       case None => None)
    else None
  }

  /** Every id is read back from its key; so no two ids, of either kind, share one. */
  lemma KeyRoundTrip(uuids: UuidText, id: PaymentId)
    requires uuids.Lawful()
    ensures ReadKey(uuids, KeyText(uuids, id)) == Some(id)
  {
    match id
    case Lightning(hash) =>
      UnHexHex(hash);
      assert hash == [hash[0]] + hash[1..];
      assert KeyText(uuids, id)[..3] == "LN-" && KeyText(uuids, id)[3..] == Hex(hash);
    case Custodial(uuid) =>
      assert KeyText(uuids, id)[..3] == "CU-" && KeyText(uuids, id)[3..] == uuids.write(uuid);
  }

  /** Two digits to a byte, the high one first, in lower case. */
  lemma {:induction false} HexDigits(bytes: seq<Byte>)
    ensures |Hex(bytes)| == 2 * |bytes|
    ensures forall i :: 0 <= i < |bytes| ==>
              && HexValue(Hex(bytes)[2 * i]) == Some(bytes[i] / 16)
              && HexValue(Hex(bytes)[2 * i + 1]) == Some(bytes[i] % 16)
    ensures forall c :: c in Hex(bytes) ==> '0' <= c <= '9' || 'a' <= c <= 'f'
  {
    if bytes == [] {
    } else {
      HexDigits(bytes[1..]);
      var rest := Hex(bytes[1..]);
      forall i | 0 <= i < |bytes|
        ensures HexValue(Hex(bytes)[2 * i]) == Some(bytes[i] / 16)
        ensures HexValue(Hex(bytes)[2 * i + 1]) == Some(bytes[i] % 16)
      {
        if i > 0 {
          assert Hex(bytes)[2 * i] == rest[2 * (i - 1)] && Hex(bytes)[2 * i + 1] == rest[2 * (i - 1) + 1];
        }
      }
    }
  }

  /** Only pairs of hexadecimal digits, of either case, are read. */
  lemma {:induction false} UnHexReads(s: string)
    ensures UnHex(s).Some? <==> |s| % 2 == 0 && forall i :: 0 <= i < |s| ==> HexValue(s[i]).Some?
    ensures UnHex(s).Some? ==> 2 * |UnHex(s).value| == |s|
  {
    if |s| < 2 {
    } else {
      UnHexReads(s[2..]);
      assert forall i :: 2 <= i < |s| ==> s[i] == s[2..][i - 2];
      assert (forall i :: 0 <= i < |s| ==> HexValue(s[i]).Some?) ==>
        forall i :: 0 <= i < |s[2..]| ==> HexValue(s[2..][i]).Some? by {
        assert forall i :: 0 <= i < |s[2..]| ==> s[2..][i] == s[i + 2];
      }
    }
  }

  /** Each pair is read as the byte that it stands for, whatever its case. */
  lemma {:induction false} UnHexDigits(s: string, i: nat)
    requires UnHex(s).Some? && i < |UnHex(s).value|
    ensures 2 * i + 1 < |s|
    ensures HexValue(s[2 * i]) == Some(UnHex(s).value[i] / 16)
    ensures HexValue(s[2 * i + 1]) == Some(UnHex(s).value[i] % 16)
  {
    if i > 0 {
      UnHexDigits(s[2..], i - 1);
      assert UnHex(s).value[i] == UnHex(s[2..]).value[i - 1];
    }
  }

  /** The keys: `LN-` and 64 digits for a lightning payment, `CU-` and the UUID for one from custody. */
  lemma KeyForm(uuids: UuidText, id: PaymentId)
    ensures id.Lightning? ==>
              |KeyText(uuids, id)| == 67 && KeyText(uuids, id)[..3] == "LN-" && KeyText(uuids, id)[3..] == Hex(id.hash)
    ensures id.Custodial? ==> KeyText(uuids, id)[..3] == "CU-" && KeyText(uuids, id)[3..] == uuids.write(id.id)
  {
    if id.Lightning? {
      HexDigits(id.hash);
    }
  }

  /** Which texts are read as keys. */
  lemma ReadKeyExactly(uuids: UuidText, s: string)
    ensures ReadKey(uuids, s).Some? <==>
            || (|s| == 67 && s[..3] == "LN-" && forall i :: 3 <= i < 67 ==> HexValue(s[i]).Some?)
            || (|s| >= 4 && s[..3] == "CU-" && uuids.read(s[3..]).Some?)
    ensures forall id :: ReadKey(uuids, s) == Some(id) ==>
              && (id.Lightning? <==> s[..3] == "LN-")
              && (id.Lightning? ==> UnHex(s[3..]) == Some(id.hash))
              && (id.Custodial? ==> uuids.read(s[3..]) == Some(id.id))
  {
    if |s| >= 4 && s[..3] == "LN-" {
      UnHexReads(s[3..]);
      assert forall i :: 3 <= i < |s| ==> s[i] == s[3..][i - 3];
      assert (forall i :: 3 <= i < |s| ==> HexValue(s[i]).Some?) ==>
        forall i :: 0 <= i < |s[3..]| ==> HexValue(s[3..][i]).Some? by {
        assert forall i :: 0 <= i < |s[3..]| ==> s[3..][i] == s[i + 3];
      }
      assert s[..3] != "CU-" by {
        assert s[..3][0] == 'L';
      }
    }
  }

  /** The codec of the wallet: these keys, with any TLV serialisation of the values. */
  function WalletCodec(uuids: UuidText, encode: TxMetadata -> seq<Byte>, decode: seq<Byte> -> Option<TxMetadata>): Codec
  {
    Codec(id => KeyText(uuids, id), s => ReadKey(uuids, s), encode, decode)
  }

  lemma WalletCodecLawful(uuids: UuidText, encode: TxMetadata -> seq<Byte>, decode: seq<Byte> -> Option<TxMetadata>)
    requires uuids.Lawful()
    requires forall metadata: TxMetadata :: decode(encode(metadata)) == Some(metadata)
    ensures WalletCodec(uuids, encode, decode).Lawful()
  {
    var c := WalletCodec(uuids, encode, decode);
    forall id: PaymentId
      ensures c.readKey(c.keyText(id)) == Some(id)
    {
      KeyRoundTrip(uuids, id);
    }
  }
}
