/**
 * AES-256-GCM framing for local storage: encrypt puts the 12-byte IV in
 * front of the ciphertext, decrypt splits the stored bytes at 12 again.
 * The random IV is a parameter (crypto.getRandomValues is not modelled).
 */
module Encryption {
  import opened Wrappers
  import opened Bytes
  import opened JsText
  import opened Crypto
  import opened Json

  const IvLength: nat := 12

  /** The bytes encrypt returns for an IV: the IV, then the sealed data. */
  function Sealed(c: Cipher, key: CryptoKey, iv: seq<byte>, data: seq<byte>): seq<byte> {
    iv + c.seal(key, iv, data)
  }

  /** encrypt: a buffer of 12 + |ciphertext| bytes, the IV set at 0 and the ciphertext at 12. */
  method Encrypt(c: Cipher, key: CryptoKey, data: seq<byte>, iv: seq<byte>) returns (result: array<byte>)
    requires |iv| == IvLength
    ensures fresh(result)
    ensures result[..] == Sealed(c, key, iv, data)
  {
    var ciphertext := c.seal(key, iv, data);
    result := new byte[IvLength + |ciphertext|](_ => 0);
    for i := 0 to IvLength
      invariant forall j :: 0 <= j < i ==> result[j] == iv[j]
    {
      result[i] := iv[i];
    }
    for i := 0 to |ciphertext|
      invariant forall j :: 0 <= j < IvLength ==> result[j] == iv[j]
      invariant forall j :: 0 <= j < i ==> result[IvLength + j] == ciphertext[j]
    {
      result[IvLength + i] := ciphertext[i];
    }
    Framed(result[..], iv, ciphertext);
  }

  lemma Framed(r: seq<byte>, iv: seq<byte>, ct: seq<byte>)
    requires |iv| == IvLength && |r| == IvLength + |ct|
    requires forall j :: 0 <= j < IvLength ==> r[j] == iv[j]
    requires forall j :: 0 <= j < |ct| ==> r[IvLength + j] == ct[j]
    ensures r == iv + ct
  {
  }

  /** The output is 12 + |ciphertext| bytes (12 + |data| + 16 with the tag): the IV, then the ciphertext unchanged. */
  lemma SealedLayout(c: Cipher, key: CryptoKey, iv: seq<byte>, data: seq<byte>)
    requires c.Sound() && |iv| == IvLength
    ensures var out, ct := Sealed(c, key, iv, data), c.seal(key, iv, data);
      && |out| == IvLength + |ct| == IvLength + |data| + 16
      && out[..IvLength] == iv
      && out[IvLength..] == ct
  {
    var out := Sealed(c, key, iv, data);
    assert out[..IvLength] == iv;
  }

  /** decrypt: the primitive gets data.slice(0, 12) as IV and data.slice(12) as ciphertext; None where it rejects. */
  function Decrypt(c: Cipher, key: CryptoKey, encrypted: seq<byte>): Option<seq<byte>> {
    c.open(key, Take(encrypted, IvLength), Drop(encrypted, IvLength))
  }

  /** Splitting what encrypt framed hands the primitive exactly the IV and the ciphertext. */
  lemma SplitSealed(c: Cipher, key: CryptoKey, iv: seq<byte>, data: seq<byte>)
    requires |iv| == IvLength
    ensures var out := Sealed(c, key, iv, data);
      Take(out, IvLength) == iv && Drop(out, IvLength) == c.seal(key, iv, data)
  {
    var out := Sealed(c, key, iv, data);
    assert out[..IvLength] == iv;
  }

  /** Decrypting with the key that encrypted gives the data back. */
  lemma DecryptEncrypt(c: Cipher, key: CryptoKey, iv: seq<byte>, data: seq<byte>)
    requires c.Sound() && |iv| == IvLength
    ensures Decrypt(c, key, Sealed(c, key, iv, data)) == Some(data)
  {
    SplitSealed(c, key, iv, data);
  }

  /** A plaintext comes out only where the primitive accepted, and then the input held an IV, the plaintext and a tag. */
  lemma DecryptAccepted(c: Cipher, key: CryptoKey, encrypted: seq<byte>)
    requires c.Sound()
    ensures var r := Decrypt(c, key, encrypted);
      && (r.Some? <==> c.open(key, Take(encrypted, IvLength), Drop(encrypted, IvLength)).Some?)
      && (r.Some? ==> |encrypted| == IvLength + |r.value| + 16)
  {
  }

  /** The bytes encryptJSON returns: the encrypted UTF-8 of the JSON text. */
  function SealedJson(c: Cipher, codec: JsonCodec, text: TextCodec, key: CryptoKey, iv: seq<byte>, v: Json): seq<byte> {
    Sealed(c, key, iv, text.encode(codec.stringify(v)))
  }

  /** encryptJSON: JSON.stringify, TextEncoder, encrypt. */
  method EncryptJson(c: Cipher, codec: JsonCodec, text: TextCodec, key: CryptoKey, v: Json, iv: seq<byte>)
    returns (result: array<byte>)
    requires |iv| == IvLength
    ensures fresh(result)
    ensures result[..] == SealedJson(c, codec, text, key, iv, v)
  {
    var json := codec.stringify(v);
    var encoded := text.encode(json);
    result := Encrypt(c, key, encoded, iv);
  }

  /** Why decryptJSON throws: decrypt rejected (OperationError) or the text is not JSON (SyntaxError). */
  datatype DecryptError = Rejected | NotJson

  /** decryptJSON: decrypt, TextDecoder, JSON.parse. */
  function DecryptJson(c: Cipher, codec: JsonCodec, text: TextCodec, key: CryptoKey, encrypted: seq<byte>): Result<Json, DecryptError> {
    match Decrypt(c, key, encrypted)
    case None => Err(Rejected)
    case Some(decrypted) =>
      match codec.parse(text.decode(decrypted))
      case None => Err(NotJson)
      case Some(v) => Ok(v)
  }

  /** decryptJSON reads back what encryptJSON wrote under the same key. */
  lemma DecryptJsonRoundTrip(c: Cipher, codec: JsonCodec, text: TextCodec, key: CryptoKey, iv: seq<byte>, v: Json)
    requires c.Sound() && codec.Sound() && text.Sound() && |iv| == IvLength
    ensures DecryptJson(c, codec, text, key, SealedJson(c, codec, text, key, iv, v)) == Ok(v)
  {
    DecryptEncrypt(c, key, iv, text.encode(codec.stringify(v)));
  }

  /** Where decrypt rejects, decryptJSON fails before any text is parsed. */
  lemma DecryptJsonRejected(c: Cipher, codec: JsonCodec, text: TextCodec, key: CryptoKey, encrypted: seq<byte>)
    ensures Decrypt(c, key, encrypted).None? <==> DecryptJson(c, codec, text, key, encrypted) == Err(Rejected)
  {
  }
}
