/** The client's encryption boundary: AES-GCM with a fresh 96-bit IV per message, the IV
    prepended to the ciphertext, and the whole frame carried as base64 through a
    one-character-per-byte "binary string". AES-GCM, `btoa`/`atob` and UTF-8 coding are
    foreign; they enter as the fields of a `Primitives` record, and the properties the
    service relies on are stated about them as predicates. */
module Encryption {
  import opened Common

  /** Bytes of IV in front of every ciphertext: 96 bits, the length NIST SP 800-38D
      (section 5.2.1.1) recommends for GCM. */
  const IvLength: nat := 12

  /** `generateKey` asks WebCrypto for an AES-GCM key of this many bits. */
  const KeyBits: nat := 256

  datatype CryptoError =
    | InvalidBase64       // `atob` threw
    | InvalidCharacter    // `btoa` threw (a character above U+00FF)
    | InvalidKeyLength    // `importKey('raw', …, AES-GCM)` rejected the key material
    | DecryptionFailure   // the GCM tag did not verify

  /** The foreign calls, as values. `seal`/`open` are AES-GCM encryption and decryption under
      (key, iv); `open` gives None when the tag does not verify. */
  datatype Primitives = Primitives(
    seal: (seq<byte>, seq<byte>, seq<byte>) -> seq<byte>,
    open: (seq<byte>, seq<byte>, seq<byte>) -> Option<seq<byte>>,
    btoa: string -> Option<string>,
    atob: string -> Option<string>,
    utf8Encode: string -> seq<byte>,
    utf8Decode: seq<byte> -> string)

  /** A string whose every character is a single byte, the domain of `btoa` and the range of `atob`. */
  predicate IsBinary(s: string) {
    forall i :: 0 <= i < |s| ==> s[i] as int < 256
  }

  /** Authenticated encryption: what was sealed opens under the same key and IV, and does not
      open under a different key of the same length. */
  ghost predicate IdealAead(p: Primitives) {
    && (forall k, iv, m :: p.open(k, iv, p.seal(k, iv, m)) == Some(m))
    && (forall k1, k2, iv, m :: |k1| == |k2| && k1 != k2 ==> p.open(k2, iv, p.seal(k1, iv, m)) == None)
  }

  /** Section 4 of RFC 4648 as far as the service needs it: `btoa` accepts every binary string,
      `atob` inverts it, and `atob` only ever yields binary strings. */
  ghost predicate Base64Codec(p: Primitives) {
    && (forall s :: IsBinary(s) ==> p.btoa(s).Some? && p.atob(p.btoa(s).value) == Some(s))
    && (forall s :: p.atob(s).Some? ==> IsBinary(p.atob(s).value))
  }

  /** `TextDecoder` inverts `TextEncoder` on every string of Unicode scalar values. */
  ghost predicate Utf8Codec(p: Primitives) {
    forall s :: p.utf8Decode(p.utf8Encode(s)) == s
  }

  ghost predicate Sound(p: Primitives) {
    IdealAead(p) && Base64Codec(p) && Utf8Codec(p)
  }

  /** The binary string `buf2base64` builds: character i has code `bytes[i]`. */
  function BinaryOf(bytes: seq<byte>): (s: string)
    ensures |s| == |bytes| && IsBinary(s)
    ensures forall i :: 0 <= i < |bytes| ==> s[i] as int == bytes[i]
  {
    seq(|bytes|, i requires 0 <= i < |bytes| => bytes[i] as char)
  }

  /** The bytes `base642buf` stores: `charCodeAt(i)` written into a `Uint8Array`, which keeps
      the low eight bits. */
  function BytesOf(s: string): (bytes: seq<byte>)
    ensures |bytes| == |s|
    ensures forall i :: 0 <= i < |s| ==> bytes[i] == s[i] as int % 256
  {
    seq(|s|, i requires 0 <= i < |s| => s[i] as int % 256)
  }

  lemma BinaryRoundTrip(bytes: seq<byte>)
    ensures BytesOf(BinaryOf(bytes)) == bytes
  {
  }

  lemma BinaryRoundTripInverse(s: string)
    requires IsBinary(s)
    ensures BinaryOf(BytesOf(s)) == s
  {
    var t := BinaryOf(BytesOf(s));
    assert |t| == |s|;
    forall i | 0 <= i < |s| ensures t[i] == s[i] {
      assert t[i] as int == s[i] as int;
    }
  }

  /** `buf2base64`: the loop over the bytes, then `btoa`. */
  method Buf2Base64(p: Primitives, bytes: array<byte>) returns (r: Option<string>)
    ensures r == p.btoa(BinaryOf(bytes[..]))
  {
    var binary := "";
    var i := 0;
    while i < bytes.Length
      invariant 0 <= i <= bytes.Length
      invariant binary == BinaryOf(bytes[..i])
    {
      binary := binary + [bytes[i] as char];
      i := i + 1;
    }
    assert bytes[..i] == bytes[..];
    r := p.btoa(binary);
  }

  /** `base642buf`: `atob`, then the loop that fills a fresh `Uint8Array`. */
  method Base642Buf(p: Primitives, text: string) returns (r: Option<array<byte>>)
    ensures p.atob(text).None? ==> r.None?
    ensures p.atob(text).Some? ==> r.Some? && fresh(r.value) && r.value[..] == BytesOf(p.atob(text).value)
  {
    var decoded := p.atob(text);
    if decoded.None? {
      return None;
    }
    var binary := decoded.value;
    var bytes := new byte[|binary|];
    var i := 0;
    while i < |binary|
      invariant 0 <= i <= |binary|
      invariant forall j :: 0 <= j < i ==> bytes[j] == binary[j] as int % 256
    {
      bytes[i] := binary[i] as int % 256;
      i := i + 1;
    }
    r := Some(bytes);
  }

  /** What `importKey('raw', base642buf(key), 'AES-GCM')` accepts: 128, 192 or 256 bits. */
  function RawKey(p: Primitives, key: string): (r: Result<seq<byte>, CryptoError>)
    ensures r.Ok? ==> |r.value| in {16, 24, 32}
    ensures p.atob(key).None? ==> r == Err(InvalidBase64)
  {
    match p.atob(key)
    case None => Err(InvalidBase64)
    case Some(binary) =>
      var raw := BytesOf(binary);
      if |raw| == 16 || |raw| == 24 || |raw| == 32 then Ok(raw) else Err(InvalidKeyLength)
  }

  /** `resultArray`: the IV followed by the ciphertext. */
  function Frame(iv: seq<byte>, ct: seq<byte>): (framed: seq<byte>)
    ensures |framed| == |iv| + |ct|
    ensures framed[..|iv|] == iv && framed[|iv|..] == ct
  {
    iv + ct
  }

  /** `slice(0, 12)` and `slice(12)`: both clamp to the length of the buffer. */
  function Unframe(bytes: seq<byte>): (parts: (seq<byte>, seq<byte>))
    ensures parts.0 + parts.1 == bytes
    ensures |bytes| >= IvLength ==> |parts.0| == IvLength
    ensures |bytes| < IvLength ==> parts.0 == bytes && parts.1 == []
  {
    var cut := if |bytes| < IvLength then |bytes| else IvLength;
    (bytes[..cut], bytes[cut..])
  }

  /** Splitting a frame at byte 12 recovers the IV and the ciphertext it was built from. */
  lemma UnframeFrame(iv: seq<byte>, ct: seq<byte>)
    requires |iv| == IvLength
    ensures Unframe(Frame(iv, ct)) == (iv, ct)
  {
  }

  /** The value `encrypt(data, key)` resolves to, for the IV `getRandomValues` produced. */
  function EncryptSpec(p: Primitives, data: string, key: string, iv: seq<byte>): Result<string, CryptoError> {
    match RawKey(p, key)
    case Err(e) => Err(e)
    case Ok(raw) =>
      match p.btoa(BinaryOf(Frame(iv, p.seal(raw, iv, p.utf8Encode(data)))))
      case None => Err(InvalidCharacter)
      case Some(text) => Ok(text)
  }

  /** The value `decrypt(payload, key)` resolves to; an `Err` is the rejection it throws. */
  function DecryptSpec(p: Primitives, payload: string, key: string): Result<string, CryptoError> {
    match RawKey(p, key)
    case Err(e) => Err(e)
    case Ok(raw) =>
      match p.atob(payload)
      case None => Err(InvalidBase64)
      case Some(binary) =>
        var (iv, ct) := Unframe(BytesOf(binary));
        match p.open(raw, iv, ct)
        case None => Err(DecryptionFailure)
        case Some(plain) => Ok(p.utf8Decode(plain))
  }

  /** `encrypt`: import the key, seal under the given 12-byte IV, copy IV and ciphertext into
      one buffer, encode it. The IV is the output of `crypto.getRandomValues(new Uint8Array(12))`. */
  method Encrypt(p: Primitives, data: string, key: string, iv: seq<byte>) returns (r: Result<string, CryptoError>)
    requires |iv| == IvLength
    ensures r == EncryptSpec(p, data, key, iv)
  {
    var rawKey := Base642Buf(p, key);
    if rawKey.None? {
      return Err(InvalidBase64);
    }
    var raw := rawKey.value[..];
    if !(|raw| == 16 || |raw| == 24 || |raw| == 32) {
      return Err(InvalidKeyLength);
    }
    var ct := p.seal(raw, iv, p.utf8Encode(data));
    var resultArray := new byte[|iv| + |ct|];
    var i := 0;
    while i < |iv|
      invariant 0 <= i <= |iv|
      invariant forall j :: 0 <= j < i ==> resultArray[j] == iv[j]
    {
      resultArray[i] := iv[i];
      i := i + 1;
    }
    var k := 0;
    while k < |ct|
      invariant 0 <= k <= |ct|
      invariant forall j :: 0 <= j < |iv| ==> resultArray[j] == iv[j]
      invariant forall j :: 0 <= j < k ==> resultArray[|iv| + j] == ct[j]
    {
      resultArray[|iv| + k] := ct[k];
      k := k + 1;
    }
    assert resultArray[..] == Frame(iv, ct);
    var encoded := Buf2Base64(p, resultArray);
    if encoded.None? {
      return Err(InvalidCharacter);
    }
    r := Ok(encoded.value);
  }

  /** `decrypt`: import the key, decode the payload, split at byte 12, open. */
  method Decrypt(p: Primitives, payload: string, key: string) returns (r: Result<string, CryptoError>)
    ensures r == DecryptSpec(p, payload, key)
  {
    var rawKey := Base642Buf(p, key);
    if rawKey.None? {
      return Err(InvalidBase64);
    }
    var raw := rawKey.value[..];
    if !(|raw| == 16 || |raw| == 24 || |raw| == 32) {
      return Err(InvalidKeyLength);
    }
    var encryptedArray := Base642Buf(p, payload);
    if encryptedArray.None? {
      return Err(InvalidBase64);
    }
    var bytes := encryptedArray.value[..];
    var cut := if |bytes| < IvLength then |bytes| else IvLength;
    var iv := bytes[..cut];
    var ciphertext := bytes[cut..];
    var decrypted := p.open(raw, iv, ciphertext);
    if decrypted.None? {
      return Err(DecryptionFailure);
    }
    r := Ok(p.utf8Decode(decrypted.value));
  }

  /** `generateKey`: WebCrypto returns 256 bits of key material, which is exported raw and
      encoded with `buf2base64`. */
  method GenerateKey(p: Primitives, material: array<byte>) returns (r: Option<string>)
    requires material.Length * 8 == KeyBits
    requires Base64Codec(p)
    ensures r.Some? && RawKey(p, r.value) == Ok(material[..])
  {
    r := Buf2Base64(p, material);
    BinaryRoundTrip(material[..]);
  }

  /** The payload `encrypt` produces decodes to the 12-byte IV followed by the ciphertext, and
      nothing else. */
  lemma EncryptFraming(p: Primitives, data: string, key: string, iv: seq<byte>)
    requires Base64Codec(p) && RawKey(p, key).Ok? && |iv| == IvLength
    ensures EncryptSpec(p, data, key, iv).Ok?
    ensures var framed := BytesOf(p.atob(EncryptSpec(p, data, key, iv).value).value);
      && |framed| == IvLength + |p.seal(RawKey(p, key).value, iv, p.utf8Encode(data))|
      && framed[..IvLength] == iv
      && framed[IvLength..] == p.seal(RawKey(p, key).value, iv, p.utf8Encode(data))
  {
    var ct := p.seal(RawKey(p, key).value, iv, p.utf8Encode(data));
    var binary := BinaryOf(Frame(iv, ct));
    assert p.btoa(binary).Some? && p.atob(p.btoa(binary).value) == Some(binary);
    BinaryRoundTrip(Frame(iv, ct));
  }

  /** `decrypt(encrypt(m, k), k) == m` under the AEAD and codec assumptions. */
  lemma RoundTrip(p: Primitives, data: string, key: string, iv: seq<byte>)
    requires Sound(p) && RawKey(p, key).Ok? && |iv| == IvLength
    ensures EncryptSpec(p, data, key, iv).Ok?
    ensures DecryptSpec(p, EncryptSpec(p, data, key, iv).value, key) == Ok(data)
  {
    var raw := RawKey(p, key).value;
    var ct := p.seal(raw, iv, p.utf8Encode(data));
    EncryptFraming(p, data, key, iv);
    UnframeFrame(iv, ct);
    BinaryRoundTrip(Frame(iv, ct));
    assert p.open(raw, iv, ct) == Some(p.utf8Encode(data));
  }

  /** Decrypting under a different key of the same length is rejected with `DecryptionFailure`. */
  lemma WrongKeyFails(p: Primitives, data: string, key: string, other: string, iv: seq<byte>)
    requires Sound(p) && |iv| == IvLength
    requires RawKey(p, key).Ok? && RawKey(p, other).Ok?
    requires |RawKey(p, key).value| == |RawKey(p, other).value|
    requires RawKey(p, key).value != RawKey(p, other).value
    ensures EncryptSpec(p, data, key, iv).Ok?
    ensures DecryptSpec(p, EncryptSpec(p, data, key, iv).value, other) == Err(DecryptionFailure)
  {
    var raw := RawKey(p, key).value;
    var ct := p.seal(raw, iv, p.utf8Encode(data));
    EncryptFraming(p, data, key, iv);
    UnframeFrame(iv, ct);
    BinaryRoundTrip(Frame(iv, ct));
    assert p.open(RawKey(p, other).value, iv, ct) == None;
  }

  /** A key that does not import makes both operations reject before any cipher work. */
  lemma KeyErrorsPropagate(p: Primitives, data: string, payload: string, key: string, iv: seq<byte>)
    requires RawKey(p, key).Err?
    ensures EncryptSpec(p, data, key, iv) == Err(RawKey(p, key).error)
    ensures DecryptSpec(p, payload, key) == Err(RawKey(p, key).error)
  {
  }
}
