/**
 * The Web Crypto primitives the wallet calls, as oracles: the key
 * derivation functions and the authenticated cipher are function values,
 * and each oracle's Sound() predicate collects the only facts the model
 * relies on (output lengths, and that opening what was sealed gives the
 * plaintext back).
 */
module Crypto {
  import opened Wrappers
  import opened Bytes

  /** A non-extractable AES-GCM CryptoKey, known only by the bytes it was derived as. */
  datatype CryptoKey = CryptoKey(material: seq<byte>)

  /**
   * crypto.subtle.deriveBits for PBKDF2 with SHA-256 (section 5.2 of RFC 8018):
   * secret, salt, iterations, bits; and for HKDF with SHA-256 (RFC 5869):
   * key material, salt, info, bits.
   */
  datatype Kdf = Kdf(
    pbkdf2: (seq<byte>, seq<byte>, nat, nat) -> seq<byte>,
    hkdf: (seq<byte>, seq<byte>, seq<byte>, nat) -> seq<byte>)
  {
    ghost predicate Sound() {
      && (forall secret: seq<byte>, salt: seq<byte>, iterations: nat, bits: nat :: |pbkdf2(secret, salt, iterations, bits)| == bits / 8)
      && (forall ikm: seq<byte>, salt: seq<byte>, info: seq<byte>, bits: nat :: |hkdf(ikm, salt, info, bits)| == bits / 8)
    }
  }

  /**
   * AES-GCM with a 128-bit tag (NIST SP 800-38D): seal is crypto.subtle.encrypt
   * with a key and an IV, open is crypto.subtle.decrypt, None where it rejects
   * with an OperationError (wrong key, wrong IV, altered bytes).
   */
  datatype Cipher = Cipher(
    seal: (CryptoKey, seq<byte>, seq<byte>) -> seq<byte>,
    open: (CryptoKey, seq<byte>, seq<byte>) -> Option<seq<byte>>)
  {
    ghost predicate Sound() {
      && (forall key, iv, pt :: |seal(key, iv, pt)| == |pt| + 16)
      && (forall key, iv, pt :: open(key, iv, seal(key, iv, pt)) == Some(pt))
      && (forall key, iv, ct :: open(key, iv, ct).Some? ==> |ct| == |open(key, iv, ct).value| + 16)
    }
  }
}
