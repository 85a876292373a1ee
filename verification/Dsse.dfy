/** DSSE pre-authentication encoding and envelope verification. */
module Dsse {
  import opened Text

  type Byte = b: nat | b < 256

  const SPACE: Byte := 32

  /** The bytes of `DSSEv1 `. */
  const HEADER: seq<Byte> := [68, 83, 83, 69, 118, 49, 32]

  lemma HeaderText()
    ensures |HEADER| == |"DSSEv1 "| && forall i | 0 <= i < |HEADER| :: HEADER[i] == "DSSEv1 "[i] as int
  {
  }

  const MAX_TYPE_BYTES: nat := 256
  const MAX_PAYLOAD_BYTES: nat := 4 * 1024 * 1024
  const MAX_SIGNATURES: nat := 16

  datatype DsseError =
    | InvalidPayload | PayloadTypeMismatch | Unsigned | EnvelopeLimit | InvalidBase64 | InvalidKeyHint
    | SignatureLimit | InvalidSignature | UntrustedSignature | InvalidKeyIdentity | DuplicateSigner

  predicate IsDigitByte(b: Byte) {
    48 <= b <= 57
  }

  /** A length in decimal ASCII digits. */
  function Numeral(n: nat): (bytes: seq<Byte>)
    ensures forall i | 0 <= i < |bytes| :: IsDigitByte(bytes[i])
  {
    var digits := Decimal(n);
    seq(|digits|, i requires 0 <= i < |digits| => digits[i] as int)
  }

  lemma NumeralInjective(m: nat, n: nat)
    requires Numeral(m) == Numeral(n)
    ensures m == n
  {
    var s, t := Decimal(m), Decimal(n);
    assert |Numeral(m)| == |s| && |Numeral(n)| == |t|;
    forall i | 0 <= i < |s| ensures s[i] == t[i] {
      assert Numeral(m)[i] == Numeral(n)[i];
    }
    DecimalInjective(m, n);
  }

  /** The framing: two lengths in bytes, and the raw bytes they count. */
  function Frame(payloadType: seq<Byte>, payload: seq<Byte>): seq<Byte> {
    HEADER + (Numeral(|payloadType|) + [SPACE] + (payloadType + [SPACE] + (Numeral(|payload|) + [SPACE] + payload)))
  }

  predicate IsEncodable(payloadType: seq<Byte>, payload: seq<Byte>) {
    0 < |payloadType| <= MAX_TYPE_BYTES && (forall b | b in payloadType :: b < 128) && |payload| <= MAX_PAYLOAD_BYTES
  }

  function PreAuthenticationEncoding(payloadType: seq<Byte>, payload: seq<Byte>): (message: Result<seq<Byte>, DsseError>)
    ensures message.Success? <==> IsEncodable(payloadType, payload)
  {
    if payloadType == [] || |payloadType| > MAX_TYPE_BYTES || (exists b | b in payloadType :: b > 127) || |payload| > MAX_PAYLOAD_BYTES
    then Failure(InvalidPayload)
    else Success(Frame(payloadType, payload))
  }

  /** A run of digits ends at the first space, so equal texts split there in the same way. */
  lemma NumeralsSplit(a: seq<Byte>, x: seq<Byte>, b: seq<Byte>, y: seq<Byte>)
    requires a + [SPACE] + x == b + [SPACE] + y
    requires (forall i | 0 <= i < |a| :: IsDigitByte(a[i])) && (forall i | 0 <= i < |b| :: IsDigitByte(b[i]))
    ensures a == b && x == y
  {
    var s, t := a + [SPACE] + x, b + [SPACE] + y;
    assert s[|a|] == SPACE && t[|b|] == SPACE;
    assert forall i | 0 <= i < |a| :: IsDigitByte(s[i]);
    assert forall i | 0 <= i < |b| :: IsDigitByte(t[i]);
    assert |a| == |b|;
    assert s[..|a|] == a && t[..|b|] == b;
    assert s[|a| + 1..] == x && t[|b| + 1..] == y;
  }

  /** Equal messages mean equal types and payloads, whatever spaces and digits these contain. */
  lemma EncodingIsInjective(type1: seq<Byte>, payload1: seq<Byte>, type2: seq<Byte>, payload2: seq<Byte>)
    requires PreAuthenticationEncoding(type1, payload1).Success?
    requires PreAuthenticationEncoding(type1, payload1) == PreAuthenticationEncoding(type2, payload2)
    ensures type1 == type2 && payload1 == payload2
  {
    hide Numeral;
    var rest1 := Numeral(|payload1|) + [SPACE] + payload1;
    var rest2 := Numeral(|payload2|) + [SPACE] + payload2;
    var tail1 := Numeral(|type1|) + [SPACE] + (type1 + [SPACE] + rest1);
    var tail2 := Numeral(|type2|) + [SPACE] + (type2 + [SPACE] + rest2);
    assert Frame(type1, payload1)[|HEADER|..] == tail1 && Frame(type2, payload2)[|HEADER|..] == tail2;
    NumeralsSplit(Numeral(|type1|), type1 + [SPACE] + rest1, Numeral(|type2|), type2 + [SPACE] + rest2);
    NumeralInjective(|type1|, |type2|);
    assert (type1 + [SPACE] + rest1)[..|type1|] == type1 && (type2 + [SPACE] + rest2)[..|type2|] == type2;
    assert (type1 + [SPACE] + rest1)[|type1| + 1..] == rest1 && (type2 + [SPACE] + rest2)[|type2| + 1..] == rest2;
    NumeralsSplit(Numeral(|payload1|), payload1, Numeral(|payload2|), payload2);
  }

  // ---- Envelopes ----

  datatype Signature = Signature(keyId: string, encoded: string)

  datatype Envelope = Envelope(payloadType: seq<Byte>, encodedPayload: string, signatures: seq<Signature>)

  datatype VerifiedKey = VerifiedKey(keyId: string, fingerprint: string)

  /** Base64 decoding and the host's trusted keys, as arbitrary functions. */
  datatype Host = Host(decode: string -> Option<seq<Byte>>, verify: (string, seq<Byte>, seq<Byte>) -> Option<VerifiedKey>)

  predicate IsKeyIdCharacter(c: char) {
    '0' <= c <= '9' || 'a' <= c <= 'z' || 'A' <= c <= 'Z' || c == '_' || c == '-' || c == '.' || c == ':'
  }

  lemma KeyIdCharacters(c: char)
    ensures IsKeyIdCharacter(c) <==>
            c in "0123456789" || c in "abcdefghijklmnopqrstuvwxyz" || c in "ABCDEFGHIJKLMNOPQRSTUVWXYZ" || c in "_-.:"
  {
    var small, capital := "abcdefghijklmnopqrstuvwxyz", "ABCDEFGHIJKLMNOPQRSTUVWXYZ";
    assert forall i | 0 <= i < 26 :: small[i] as int == 97 + i && capital[i] as int == 65 + i;
    if 'a' <= c <= 'z' {
      assert small[c as int - 97] == c;
    }
    if 'A' <= c <= 'Z' {
      assert capital[c as int - 65] == c;
    }
  }

  predicate IsKeyId(id: string) {
    0 < |id| <= 128 && forall c | c in id :: IsKeyIdCharacter(c)
  }

  /** The host verifies this signature of the message under this key, and both are within their limits. */
  predicate SignatureVerifies(host: Host, message: seq<Byte>, s: Signature, key: VerifiedKey) {
    && IsKeyId(s.keyId) && |s.encoded| <= 1368
    && host.decode(s.encoded).Some? && 1 <= |host.decode(s.encoded).value| <= 1024
    && host.verify(s.keyId, message, host.decode(s.encoded).value) == Some(key)
    && 1 <= |key.keyId| <= 128 && IsDigest(key.fingerprint)
  }

  /** The key that one signature verifies under. */
  function CheckSignature(host: Host, message: seq<Byte>, s: Signature): (checked: Result<VerifiedKey, DsseError>)
    ensures forall key :: checked == Success(key) <==> SignatureVerifies(host, message, s, key)
  {
    if s.keyId == "" || |s.keyId| > 128 || exists i | 0 <= i < |s.keyId| :: !IsKeyIdCharacter(s.keyId[i]) then Failure(InvalidKeyHint)
    else if |s.encoded| > 1368 then Failure(SignatureLimit)
    else
      match host.decode(s.encoded)
      case None => Failure(InvalidBase64)
      case Some(bytes) =>
        if bytes == [] || |bytes| > 1024 then Failure(InvalidSignature)
        else
          match host.verify(s.keyId, message, bytes)
          case None => Failure(UntrustedSignature)
          case Some(key) =>
            if key.keyId == "" || |key.keyId| > 128 || !IsDigest(key.fingerprint) then Failure(InvalidKeyIdentity) else Success(key)
  }

  /** Every signature verifies, in order, under keys with distinct fingerprints. */
  predicate AllVerify(host: Host, message: seq<Byte>, signatures: seq<Signature>, keys: seq<VerifiedKey>) {
    && |keys| == |signatures|
    && (forall i | 0 <= i < |signatures| :: SignatureVerifies(host, message, signatures[i], keys[i]))
    && (forall i, j | 0 <= i < j < |keys| :: keys[i].fingerprint != keys[j].fingerprint)
  }

  lemma DuplicateIsRefused(host: Host, message: seq<Byte>, signatures: seq<Signature>, i: nat, j: nat)
    requires i < j < |signatures|
    requires CheckSignature(host, message, signatures[i]).Success? && CheckSignature(host, message, signatures[j]).Success?
    requires CheckSignature(host, message, signatures[i]).value.fingerprint == CheckSignature(host, message, signatures[j]).value.fingerprint
    ensures forall keys :: !AllVerify(host, message, signatures, keys)
  {
    hide CheckSignature;
  }

  /** The loop over the signatures, with its set of fingerprints. */
  method VerifySignatures(host: Host, message: seq<Byte>, signatures: seq<Signature>) returns (result: Result<seq<VerifiedKey>, DsseError>)
    ensures result.Success? ==> AllVerify(host, message, signatures, result.value)
    ensures result.Failure? ==> forall keys :: !AllVerify(host, message, signatures, keys)
  {
    var identities: set<string> := {};
    var keys: seq<VerifiedKey> := [];
    var index := 0;
    while index < |signatures|
      invariant 0 <= index <= |signatures|
      invariant AllVerify(host, message, signatures[..index], keys)
      invariant identities == set key | key in keys :: key.fingerprint
    {
      var checked := CheckSignature(host, message, signatures[index]);
      if checked.Failure? {
        return Failure(checked.error);
      }
      var key := checked.value;
      if key.fingerprint in identities {
        var earlier :| earlier in keys && earlier.fingerprint == key.fingerprint;
        var i :| 0 <= i < |keys| && keys[i] == earlier;
        assert SignatureVerifies(host, message, signatures[..index][i], keys[i]);
        DuplicateIsRefused(host, message, signatures, i, index);
        return Failure(DuplicateSigner);
      }
      identities := identities + {key.fingerprint};
      keys := keys + [key];
      index := index + 1;
    }
    assert signatures[..index] == signatures;
    result := Success(keys);
  }

  datatype VerifiedEnvelope = VerifiedEnvelope(payload: seq<Byte>, keys: seq<VerifiedKey>)

  method Verify(host: Host, envelope: Envelope, expectedType: seq<Byte>) returns (result: Result<VerifiedEnvelope, DsseError>)
    ensures result.Success? <==>
            && envelope.payloadType == expectedType && 0 < |envelope.signatures| <= MAX_SIGNATURES
            && |envelope.encodedPayload| <= (MAX_PAYLOAD_BYTES + 2) / 3 * 4
            && host.decode(envelope.encodedPayload).Some?
            && IsEncodable(expectedType, host.decode(envelope.encodedPayload).value)
            && exists keys :: AllVerify(host, Frame(expectedType, host.decode(envelope.encodedPayload).value), envelope.signatures, keys)
    ensures result.Success? ==>
              && host.decode(envelope.encodedPayload) == Some(result.value.payload)
              && AllVerify(host, Frame(expectedType, result.value.payload), envelope.signatures, result.value.keys)
  {
    if envelope.payloadType != expectedType {
      return Failure(PayloadTypeMismatch);
    }
    if envelope.signatures == [] {
      return Failure(Unsigned);
    }
    if |envelope.signatures| > MAX_SIGNATURES || |envelope.encodedPayload| > (MAX_PAYLOAD_BYTES + 2) / 3 * 4 {
      return Failure(EnvelopeLimit);
    }
    var decoded := host.decode(envelope.encodedPayload);
    if decoded.None? {
      return Failure(InvalidBase64);
    }
    var message := PreAuthenticationEncoding(envelope.payloadType, decoded.value);
    if message.Failure? {
      return Failure(message.error);
    }
    var keys := VerifySignatures(host, message.value, envelope.signatures);
    if keys.Failure? {
      return Failure(keys.error);
    }
    result := Success(VerifiedEnvelope(decoded.value, keys.value));
  }

  // ---- Signing ----

  /** What a signer brings, with the encoding both sides use. */
  datatype Signer = Signer(keyId: string, sign: seq<Byte> -> Option<seq<Byte>>, encode: seq<Byte> -> string)

  function Sign(signer: Signer, payloadType: seq<Byte>, payload: seq<Byte>): (envelope: Result<Envelope, DsseError>) {
    match PreAuthenticationEncoding(payloadType, payload)
    case Failure(error) => Failure(error)
    case Success(message) =>
      if !IsKeyId(signer.keyId) then Failure(InvalidKeyHint)
      else
        match signer.sign(message)
        case None => Failure(UntrustedSignature)
        case Some(bytes) =>
          if bytes == [] || |bytes| > 1024 then Failure(InvalidSignature)
          else Success(Envelope(payloadType, signer.encode(payload), [Signature(signer.keyId, signer.encode(bytes))]))
  }

  /** The two sides agree: decoding undoes encoding, which takes four characters for three bytes, and the host verifies what the signer
      signs, under a well-formed key. */
  ghost predicate Agree(host: Host, signer: Signer, key: VerifiedKey) {
    && (forall bytes :: host.decode(signer.encode(bytes)) == Some(bytes) && |signer.encode(bytes)| == (|bytes| + 2) / 3 * 4)
    && (forall message | signer.sign(message).Some? :: host.verify(signer.keyId, message, signer.sign(message).value) == Some(key))
    && 1 <= |key.keyId| <= 128 && IsDigest(key.fingerprint)
  }

  /** Round trip: whatever a signer the host agrees with can sign, the host verifies, with that payload and that key alone. */
  method SignedVerifies(host: Host, signer: Signer, key: VerifiedKey, payloadType: seq<Byte>, payload: seq<Byte>) returns (result: Result<VerifiedEnvelope, DsseError>)
    requires Agree(host, signer, key) && Sign(signer, payloadType, payload).Success?
    ensures result == Success(VerifiedEnvelope(payload, [key]))
  {
    var envelope := Sign(signer, payloadType, payload).value;
    ghost var message := Frame(payloadType, payload);
    assert host.decode(envelope.encodedPayload) == Some(payload);
    assert SignatureVerifies(host, message, envelope.signatures[0], key) by {
      assert |signer.sign(message).value| <= 1024;
    }
    assert AllVerify(host, message, envelope.signatures, [key]);
    result := Verify(host, envelope, payloadType);
    assert |envelope.encodedPayload| <= (MAX_PAYLOAD_BYTES + 2) / 3 * 4;
    assert result.Success?;
    assert SignatureVerifies(host, message, envelope.signatures[0], result.value.keys[0]);
    assert result.value.keys == [key];
  }
}
