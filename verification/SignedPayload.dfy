/**
 Signed, expiring payloads: `base64url(json).base64url(mac)`. The JSON printer and parser and the
 keyed MAC are parameters; all that is asked of them is that parsing inverts printing and that a
 MAC is not empty.
 */
module SignedPayload {
  import opened Wrappers
  import opened Base64Url

  datatype Value = Int(n: int) | Opaque(repr: seq<Byte>)

  type Body = map<string, Value>

  datatype Scheme = Scheme(dump: Body -> seq<Byte>, parse: seq<Byte> -> Option<Body>, mac: string -> seq<Byte>)
  {
    ghost predicate Valid() {
      && (forall body :: parse(dump(body)) == Some(body) && dump(body) != [])
      && (forall text :: mac(text) != [])
    }
  }

  datatype InvalidPayload = Malformed | NotComparable | BadSignature | Unreadable | Expired

  const EXPIRY := "exp"

  function Signature(scheme: Scheme, payload: string): string {
    Encode(scheme.mac(payload))
  }

  /** `now` is the signer's clock in seconds. */
  function SignPayload(scheme: Scheme, data: Body, ttl: int, now: real): string {
    var payload := Encode(scheme.dump(data[EXPIRY := Int(now.Floor + ttl)]));
    payload + "." + Signature(scheme, payload)
  }

  /** The text before the first dot and the text after it. */
  function Partition(s: string): (string, string) {
    if s == "" then ("", "")
    else if s[0] == '.' then ("", s[1..])
    else
      var (before, after) := Partition(s[1..]);
      ([s[0]] + before, after)
  }

  predicate Ascii(s: string) {
    forall c :: c in s ==> c < 128 as char
  }

  function VerifyPayload(scheme: Scheme, signed: string, now: real): Result<Body, InvalidPayload> {
    var (payload, signature) := Partition(signed);
    if payload == "" || signature == "" then Err(Malformed)
    else if !Ascii(signature) then Err(NotComparable)  // the constant-time comparison rejects such text
    else if signature != Signature(scheme, payload) then Err(BadSignature)
    else
      match (if Ascii(payload) then Decode(payload) else None)
      case None => Err(Unreadable)
      case Some(bytes) =>
        match scheme.parse(bytes)
        case None => Err(Unreadable)
        case Some(body) =>
          if EXPIRY in body && body[EXPIRY].Int? && body[EXPIRY].n as real >= now then Ok(body - {EXPIRY})
          else Err(Expired)
  }

  lemma {:induction false} PartitionAtFirstDot(before: string, after: string)
    requires '.' !in before
    ensures Partition(before + "." + after) == (before, after)
  {
    var s := before + "." + after;
    if before == "" {
      assert s[1..] == after;
    } else {
      assert s[1..] == before[1..] + "." + after;
      PartitionAtFirstDot(before[1..], after);
      assert [before[0]] + before[1..] == before;
    }
  }

  lemma {:induction false} PartitionRejoins(s: string)
    requires Partition(s).1 != ""
    ensures s == Partition(s).0 + "." + Partition(s).1 && '.' !in Partition(s).0
  {
    if s != "" && s[0] != '.' {
      PartitionRejoins(s[1..]);
    }
  }

  lemma EncodedIsAscii(data: seq<Byte>)
    ensures Ascii(Encode(data))
  {
    PaddedForm(data);
  }

  /**
   What was signed verifies to the signed data, without the reserved key, up to and including the
   second of expiry, and is refused as expired at any later instant.
   */
  lemma VerifyInvertsSign(scheme: Scheme, data: Body, ttl: int, signedAt: real, now: real)
    requires scheme.Valid()
    ensures VerifyPayload(scheme, SignPayload(scheme, data, ttl, signedAt), now)
            == if now <= (signedAt.Floor + ttl) as real then Ok(data - {EXPIRY}) else Err(Expired)
  {
    var body := data[EXPIRY := Int(signedAt.Floor + ttl)];
    var payload := Encode(scheme.dump(body));
    DecodeInvertsEncode(scheme.dump(body));
    DecodeInvertsEncode(scheme.mac(payload));
    EncodedIsAscii(scheme.dump(body));
    EncodedIsAscii(scheme.mac(payload));
    PartitionAtFirstDot(payload, Signature(scheme, payload));
    assert body - {EXPIRY} == data - {EXPIRY};
  }

  /** The dictionary comes back unchanged exactly when it does not use the reserved key. */
  lemma RoundTripIffNoReservedKey(scheme: Scheme, data: Body, ttl: int, signedAt: real, now: real)
    requires scheme.Valid() && now <= (signedAt.Floor + ttl) as real
    ensures VerifyPayload(scheme, SignPayload(scheme, data, ttl, signedAt), now) == Ok(data) <==> EXPIRY !in data
  {
    VerifyInvertsSign(scheme, data, ttl, signedAt, now);
    if EXPIRY !in data {
      assert data - {EXPIRY} == data;
    } else {
      assert EXPIRY !in (data - {EXPIRY});
    }
  }

  /** Nothing verifies but a payload followed by its own MAC, and only before the expiry it carries. */
  lemma VerifiedIsSignedAndCurrent(scheme: Scheme, signed: string, now: real)
    requires VerifyPayload(scheme, signed, now).Ok?
    ensures var payload := Partition(signed).0;
            && signed == payload + "." + Signature(scheme, payload)
            && Decode(payload).Some? && scheme.parse(Decode(payload).value).Some?
            && var body := scheme.parse(Decode(payload).value).value;
               && EXPIRY in body && body[EXPIRY].Int? && now <= body[EXPIRY].n as real
               && VerifyPayload(scheme, signed, now).value == body - {EXPIRY}
  {
    PartitionRejoins(signed);
  }
}
