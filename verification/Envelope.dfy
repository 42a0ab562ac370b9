/** The binary key envelope, format version 2. */
module Envelope {
  import opened Options

  type Byte = x: int | 0 <= x < 0x100

  type Word = x: int | 0 <= x < 0x1_0000

  type Bytes = seq<Byte>

  const MAGIC_1: Byte := 0x50
  const MAGIC_2: Byte := 0x51
  const FORMAT_V2: Byte := 0x02
  const HEADER_SIZE := 7
  const NONCE_SIZE := 12
  const TAG_SIZE := 16

  /** An envelope as events carry it, with its binary parts in Base64. */
  datatype Wrapped = Wrapped(suiteID: Word, encapsulatedKey: string, nonce: string, wrappedKey: string)

  /** The parts of an envelope as bytes. */
  datatype Parts = Parts(suiteID: Word, encap: Bytes, nonce: Bytes, wrapped: Bytes)

  datatype EncodeError = BadEncapsulatedKey | BadNonce | BadWrappedKey | NonceLength(n: nat) | KeyLength(n: nat)

  datatype Encoding = Encoded(buf: Bytes) | Rejected(error: EncodeError)

  /** Base64 decoding; `None` stands for malformed input. */
  type Decoder = string -> Option<Bytes>

  /** The parts of an envelope that is accepted, or why it is not. */
  function Accept(env: Wrapped, base64: Decoder): (r: (Option<Parts>, Option<EncodeError>))
    ensures r.0.Some? <==> r.1.None?
    ensures r.0.Some? <==>
      && base64(env.encapsulatedKey).Some? && base64(env.nonce).Some? && base64(env.wrappedKey).Some?
      && |base64(env.nonce).value| == NONCE_SIZE && |base64(env.encapsulatedKey).value| <= 0xFFFF
    ensures r.0.Some? ==>
      && Some(r.0.value.encap) == base64(env.encapsulatedKey) && Some(r.0.value.nonce) == base64(env.nonce)
      && Some(r.0.value.wrapped) == base64(env.wrappedKey) && r.0.value.suiteID == env.suiteID
  {
    match base64(env.encapsulatedKey)
    case None => (None, Some(BadEncapsulatedKey))
    case Some(encap) =>
      match base64(env.nonce)
      case None => (None, Some(BadNonce))
      case Some(nonce) =>
        match base64(env.wrappedKey)
        case None => (None, Some(BadWrappedKey))
        case Some(wrapped) =>
          if |nonce| != NONCE_SIZE then (None, Some(NonceLength(|nonce|)))
          else if |encap| > 0xFFFF then (None, Some(KeyLength(|encap|)))
          else (Some(Parts(env.suiteID, encap, nonce, wrapped)), None)
  }

  /** A conversion to 16 bits keeps the low ones. */
  function ToWord(n: nat): Word {
    n % 0x1_0000
  }

  function BigEndian(w: Word): Bytes {
    [w / 0x100, w % 0x100]
  }

  function FromBigEndian(hi: Byte, lo: Byte): Word {
    hi * 0x100 + lo
  }

  /** The seven bytes before the encapsulated key. */
  function Head(p: Parts): Bytes {
    [MAGIC_1, MAGIC_2, FORMAT_V2] + BigEndian(p.suiteID) + BigEndian(ToWord(|p.encap|))
  }

  /** The layout of the format. */
  function Layout(p: Parts): Bytes {
    Head(p) + p.encap + p.nonce + p.wrapped
  }

  /** Encodes field by field.  The receiver gets the suite id and the three decoded parts, each in
      its own field, unless the wrapped key is shorter than a tag; the first of the source's five
      reasons is given for a refusal. */
  method EncodeBinaryEnvelope(env: Wrapped, base64: Decoder) returns (r: Encoding)
    ensures var encap, nonce, wrapped := base64(env.encapsulatedKey), base64(env.nonce), base64(env.wrappedKey);
      match r
      case Encoded(buf) =>
        && encap.Some? && nonce.Some? && wrapped.Some?
        && |buf| == 7 + |encap.value| + 12 + |wrapped.value|
        && Decode(buf) == if |wrapped.value| >= 16
                          then Decoded(Parts(env.suiteID, encap.value, nonce.value, wrapped.value))
                          else Refused(TooShort)
      case Rejected(BadEncapsulatedKey) => encap.None?
      case Rejected(BadNonce) => encap.Some? && nonce.None?
      case Rejected(BadWrappedKey) => encap.Some? && nonce.Some? && wrapped.None?
      case Rejected(NonceLength(n)) => encap.Some? && nonce.Some? && wrapped.Some? && |nonce.value| == n != 12
      case Rejected(KeyLength(n)) =>
        encap.Some? && nonce.Some? && wrapped.Some? && |nonce.value| == 12 && |encap.value| == n > 65535
    ensures r == match Accept(env, base64).0 case Some(p) => Encoded(Layout(p)) case None => Rejected(Accept(env, base64).1.value)
  {
    var encapKey := base64(env.encapsulatedKey);
    if encapKey.None? {
      return Rejected(BadEncapsulatedKey);
    }
    var nonce := base64(env.nonce);
    if nonce.None? {
      return Rejected(BadNonce);
    }
    var wrappedKey := base64(env.wrappedKey);
    if wrappedKey.None? {
      return Rejected(BadWrappedKey);
    }
    if |nonce.value| != NONCE_SIZE {
      return Rejected(NonceLength(|nonce.value|));
    }
    if |encapKey.value| > 0xFFFF {
      return Rejected(KeyLength(|encapKey.value|));
    }
    var buf: Bytes := [];
    buf := buf + [MAGIC_1, MAGIC_2, FORMAT_V2];
    buf := buf + BigEndian(env.suiteID);
    buf := buf + BigEndian(ToWord(|encapKey.value|));
    buf := buf + encapKey.value;
    buf := buf + nonce.value;
    buf := buf + wrappedKey.value;
    ghost var p := Parts(env.suiteID, encapKey.value, nonce.value, wrappedKey.value);
    assert buf == Layout(p);
    LayoutFields(p);
    DecodeEncoded(p);
    return Encoded(buf);
  }

  datatype DecodeError = BadStream | BadVersion | TooShort

  datatype Decoding = Decoded(parts: Parts) | Refused(error: DecodeError)

  /** The receiving side. */
  function Decode(raw: Bytes): Decoding {
    if |raw| < HEADER_SIZE || raw[0] != MAGIC_1 || raw[1] != MAGIC_2 then Refused(BadStream)
    else if raw[2] != FORMAT_V2 then Refused(BadVersion)
    else
      var keyLen := FromBigEndian(raw[5], raw[6]);
      if |raw| < HEADER_SIZE + keyLen + NONCE_SIZE + TAG_SIZE then Refused(TooShort)
      else
        Decoded(Parts(FromBigEndian(raw[3], raw[4]),
                      raw[HEADER_SIZE..HEADER_SIZE + keyLen],
                      raw[HEADER_SIZE + keyLen..HEADER_SIZE + keyLen + NONCE_SIZE],
                      raw[HEADER_SIZE + keyLen + NONCE_SIZE..]))
  }

  /** Parts that the encoder accepts. */
  ghost predicate Encodable(p: Parts) {
    |p.nonce| == NONCE_SIZE && |p.encap| <= 0xFFFF
  }

  /** Where the fields are; the 16-bit length is the length of the key, never a truncation. */
  lemma LayoutFields(p: Parts)
    requires Encodable(p)
    ensures var b, n := Layout(p), HEADER_SIZE + |p.encap|;
      && |b| == 7 + |p.encap| + 12 + |p.wrapped|
      && b[..3] == ['P' as int, 'Q' as int, 2]
      && 256 * (b[3] as int) + b[4] as int == p.suiteID && 256 * (b[5] as int) + b[6] as int == |p.encap|
      && b[HEADER_SIZE..n] == p.encap && b[n..n + NONCE_SIZE] == p.nonce && b[n + NONCE_SIZE..] == p.wrapped
  {
    assert |Head(p)| == HEADER_SIZE;
    assert Layout(p) == Head(p) + (p.encap + (p.nonce + p.wrapped));
    assert Layout(p)[..7] == Head(p);
  }

  /** What the encoder accepts is decoded to the same parts exactly when the wrapped key holds
      at least a tag; otherwise it is refused as too short. */
  lemma DecodeEncoded(p: Parts)
    requires Encodable(p)
    ensures Decode(Layout(p)) == if |p.wrapped| >= 16 then Decoded(p) else Refused(TooShort)
  {
    LayoutFields(p);
    var b := Layout(p);
    assert b[0] == b[..3][0] && b[1] == b[..3][1] && b[2] == b[..3][2];
  }

  /** The encoding is injective, even where the receiver refuses it. */
  lemma LayoutInjective(p: Parts, q: Parts)
    requires Encodable(p) && Encodable(q)
    ensures Layout(p) == Layout(q) <==> p == q
  {
    LayoutFields(p);
    LayoutFields(q);
  }

  /** Whatever is decoded is the encoding of its parts: no second stream decodes to them. */
  lemma EncodeDecoded(raw: Bytes)
    requires Decode(raw).Decoded?
    ensures Encodable(Decode(raw).parts) && Layout(Decode(raw).parts) == raw
  {
    var p := Decode(raw).parts;
    var n := HEADER_SIZE + |p.encap|;
    HeaderDecoded(raw);
    assert raw == raw[..n + NONCE_SIZE] + p.wrapped;
    assert raw[..n + NONCE_SIZE] == raw[..n] + p.nonce;
    assert raw[..n] == raw[..HEADER_SIZE] + p.encap;
  }

  lemma HeadIs(p: Parts, raw: Bytes)
    requires |raw| >= HEADER_SIZE && raw[0] == MAGIC_1 && raw[1] == MAGIC_2 && raw[2] == FORMAT_V2
    requires BigEndian(p.suiteID) == [raw[3], raw[4]] && BigEndian(ToWord(|p.encap|)) == [raw[5], raw[6]]
    ensures Head(p) == raw[..HEADER_SIZE]
  {
  }

  lemma HeaderDecoded(raw: Bytes)
    requires Decode(raw).Decoded?
    ensures Encodable(Decode(raw).parts) && Head(Decode(raw).parts) == raw[..HEADER_SIZE]
  {
    var p, keyLen := Decode(raw).parts, FromBigEndian(raw[5], raw[6]);
    BytesOfWord(raw[3], raw[4]);
    BytesOfWord(raw[5], raw[6]);
    assert |p.encap| == keyLen && ToWord(keyLen) == keyLen;
    HeadIs(p, raw);
  }

  lemma BytesOfWord(hi: Byte, lo: Byte)
    ensures BigEndian(FromBigEndian(hi, lo)) == [hi, lo]
  {
  }
}
