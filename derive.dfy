/**
 * Key derivation from the authentication secret: the master seed by PBKDF2
 * over a deterministic salt, and four sub-keys of the master seed by HKDF,
 * each under its own salt and info labels.
 */
module Derive {
  import opened Wrappers
  import opened Bytes
  import opened JsText
  import opened Crypto

  const Pbkdf2Iterations: nat := 600000

  /** new TextEncoder().encode('veil-wallet-v1'): the character codes of v e i l - w a l l e t - v 1. */
  function SaltPrefix(): (p: seq<byte>)
    ensures |p| == 14
  {
    [0x76, 0x65, 0x69, 0x6c, 0x2d, 0x77, 0x61, 0x6c, 0x6c, 0x65, 0x74, 0x2d, 0x76, 0x31]
  }

  function ZeroBytes(n: nat): (z: seq<byte>)
    ensures |z| == n && forall i :: 0 <= i < n ==> z[i] == 0
  {
    seq(n, _ => 0)
  }

  /** The salt generateSalt lays out for a secret. */
  function SaltFor(authSecret: seq<byte>): (salt: seq<byte>)
    ensures |salt| == 22
  {
    var part := Take(authSecret, 8);
    SaltPrefix() + part + ZeroBytes(8 - |part|)
  }

  /**
   * The salt is 22 bytes: the 14 prefix bytes, then the first (up to) eight
   * bytes of the secret, then zeros where the secret is shorter than eight.
   */
  lemma SaltLayout(authSecret: seq<byte>)
    ensures var salt := SaltFor(authSecret); var n := if |authSecret| < 8 then |authSecret| else 8;
      && |salt| == 22
      && salt[..14] == SaltPrefix()
      && salt[14..14 + n] == authSecret[..n]
      && forall i :: 14 + n <= i < 22 ==> salt[i] == 0
  {
    var part := Take(authSecret, 8);
    var salt := SaltFor(authSecret);
    assert salt[..14] == SaltPrefix();
    assert salt[14..14 + |part|] == part;
  }

  /** Only the first eight bytes of the secret reach the salt. */
  lemma SaltDependsOnPrefix(a: seq<byte>, b: seq<byte>)
    requires Take(a, 8) == Take(b, 8)
    ensures SaltFor(a) == SaltFor(b)
  {
  }

  /** generateSalt: a zero-filled buffer of 14 + 8 bytes, the prefix set at 0 and the secret's first bytes at 14. */
  method GenerateSalt(authSecret: seq<byte>) returns (combined: array<byte>)
    ensures fresh(combined)
    ensures combined[..] == SaltFor(authSecret)
  {
    var prefix := SaltPrefix();
    combined := new byte[|prefix| + 8](_ => 0);
    for i := 0 to |prefix|
      invariant forall j :: 0 <= j < i ==> combined[j] == prefix[j]
      invariant forall j :: i <= j < combined.Length ==> combined[j] == 0
    {
      combined[i] := prefix[i];
    }
    var part := Take(authSecret, 8);
    for i := 0 to |part|
      invariant forall j :: 0 <= j < 14 ==> combined[j] == prefix[j]
      invariant forall j :: 0 <= j < i ==> combined[14 + j] == part[j]
      invariant forall j :: 14 + i <= j < combined.Length ==> combined[j] == 0
    {
      combined[14 + i] := part[i];
    }
    Assembled(combined[..], prefix, part);
  }

  lemma Assembled(c: seq<byte>, prefix: seq<byte>, part: seq<byte>)
    requires |prefix| == 14 && |part| <= 8 && |c| == 22
    requires forall j :: 0 <= j < 14 ==> c[j] == prefix[j]
    requires forall j :: 0 <= j < |part| ==> c[14 + j] == part[j]
    requires forall j :: 14 + |part| <= j < 22 ==> c[j] == 0
    ensures c == prefix + part + ZeroBytes(8 - |part|)
  {
  }

  /** zeroize: data.fill(0). */
  method Zeroize(data: array<byte>)
    modifies data
    ensures data[..] == ZeroBytes(data.Length)
  {
    for i := 0 to data.Length
      invariant forall j :: 0 <= j < i ==> data[j] == 0
    {
      data[i] := 0;
    }
  }

  /** salt ?? generateSalt(authSecret) */
  function EffectiveSalt(authSecret: seq<byte>, salt: Option<seq<byte>>): seq<byte> {
    salt.GetOr(SaltFor(authSecret))
  }

  /** deriveMasterSeed: 256 bits of PBKDF2 over the secret, 600 000 iterations. */
  function DeriveMasterSeed(kdf: Kdf, authSecret: seq<byte>, salt: Option<seq<byte>>): seq<byte> {
    kdf.pbkdf2(authSecret, EffectiveSalt(authSecret, salt), Pbkdf2Iterations, 256)
  }

  /** A caller's salt is used as given; without one the salt is the one laid out from the secret. */
  lemma MasterSeedSalt(kdf: Kdf, authSecret: seq<byte>, salt: Option<seq<byte>>)
    ensures salt.Some? ==> DeriveMasterSeed(kdf, authSecret, salt) == kdf.pbkdf2(authSecret, salt.value, 600000, 256)
    ensures salt.None? ==> DeriveMasterSeed(kdf, authSecret, salt) == kdf.pbkdf2(authSecret, SaltFor(authSecret), 600000, 256)
  {
  }

  /** The HKDF salt and info texts of one sub-key. */
  datatype Label = Label(salt: string, info: string)

  const EncryptionSalt: string := "veil-encryption-key"
  const EncryptionInfo: string := "aes-256-gcm"
  const OwnerKeySalt: string := "veil-owner-key"
  const OwnerKeyInfo: string := "secp256k1"
  const MnemonicSalt: string := "veil-railgun-mnemonic"
  const MnemonicInfo: string := "bip39-entropy"
  const RailgunDbSalt: string := "veil-railgun-encryption"
  const RailgunDbInfo: string := "railgun-db-encryption-key"

  const EncryptionLabel := Label(EncryptionSalt, EncryptionInfo)
  const OwnerKeyLabel := Label(OwnerKeySalt, OwnerKeyInfo)
  const MnemonicLabel := Label(MnemonicSalt, MnemonicInfo)
  const RailgunDbLabel := Label(RailgunDbSalt, RailgunDbInfo)

  /** The bytes HKDF is given for a label: TextEncoder of its salt and of its info. */
  function LabelBytes(text: TextCodec, l: Label): (seq<byte>, seq<byte>) {
    (text.encode(l.salt), text.encode(l.info))
  }

  /** The four sub-keys are derived under pairwise different (salt, info) byte pairs. */
  lemma LabelsDistinct(text: TextCodec)
    requires text.Sound()
    ensures LabelBytes(text, EncryptionLabel) != LabelBytes(text, OwnerKeyLabel)
    ensures LabelBytes(text, EncryptionLabel) != LabelBytes(text, MnemonicLabel)
    ensures LabelBytes(text, EncryptionLabel) != LabelBytes(text, RailgunDbLabel)
    ensures LabelBytes(text, OwnerKeyLabel) != LabelBytes(text, MnemonicLabel)
    ensures LabelBytes(text, OwnerKeyLabel) != LabelBytes(text, RailgunDbLabel)
    ensures LabelBytes(text, MnemonicLabel) != LabelBytes(text, RailgunDbLabel)
  {
    EncodeInjective(text, EncryptionSalt, OwnerKeySalt);
    EncodeInjective(text, EncryptionSalt, MnemonicSalt);
    EncodeInjective(text, EncryptionSalt, RailgunDbSalt);
    EncodeInjective(text, OwnerKeySalt, MnemonicSalt);
    EncodeInjective(text, OwnerKeySalt, RailgunDbSalt);
    EncodeInjective(text, MnemonicSalt, RailgunDbSalt);
  }

  /** deriveBits with HKDF under one label. */
  function Hkdf(kdf: Kdf, text: TextCodec, masterSeed: seq<byte>, l: Label, bits: nat): seq<byte> {
    var (salt, info) := LabelBytes(text, l);
    kdf.hkdf(masterSeed, salt, info, bits)
  }

  /** deriveEncryptionKey: a 256-bit AES-GCM key. */
  function DeriveEncryptionKey(kdf: Kdf, text: TextCodec, masterSeed: seq<byte>): CryptoKey {
    CryptoKey(Hkdf(kdf, text, masterSeed, EncryptionLabel, 256))
  }

  /** deriveOwnerKeyBytes: 256 bits for the secp256k1 owner key. */
  function DeriveOwnerKeyBytes(kdf: Kdf, text: TextCodec, masterSeed: seq<byte>): seq<byte> {
    Hkdf(kdf, text, masterSeed, OwnerKeyLabel, 256)
  }

  /** deriveMnemonicEntropy: 128 bits, a 12-word mnemonic's entropy. */
  function DeriveMnemonicEntropy(kdf: Kdf, text: TextCodec, masterSeed: seq<byte>): seq<byte> {
    Hkdf(kdf, text, masterSeed, MnemonicLabel, 128)
  }

  /** deriveRailgunEncryptionKey: 256 bits written as hexadecimal text. */
  function DeriveRailgunEncryptionKey(kdf: Kdf, text: TextCodec, masterSeed: seq<byte>): string {
    HexEncode(Hkdf(kdf, text, masterSeed, RailgunDbLabel, 256))
  }

  /** The master seed is 32 bytes, the owner key 32 bytes, the mnemonic entropy 16 bytes, the storage key 32 bytes. */
  lemma DerivedLengths(kdf: Kdf, text: TextCodec, authSecret: seq<byte>, salt: Option<seq<byte>>, masterSeed: seq<byte>)
    requires kdf.Sound()
    ensures |DeriveMasterSeed(kdf, authSecret, salt)| == 32
    ensures |DeriveEncryptionKey(kdf, text, masterSeed).material| == 32
    ensures |DeriveOwnerKeyBytes(kdf, text, masterSeed)| == 32
    ensures |DeriveMnemonicEntropy(kdf, text, masterSeed)| == 16
  {
  }

  /** The Railgun storage key is 64 lowercase hex digits, two zero-padded digits per derived byte. */
  lemma RailgunEncryptionKeyShape(kdf: Kdf, text: TextCodec, masterSeed: seq<byte>)
    requires kdf.Sound()
    ensures var bits := Hkdf(kdf, text, masterSeed, RailgunDbLabel, 256);
      var key := DeriveRailgunEncryptionKey(kdf, text, masterSeed);
      && |bits| == 32 && |key| == 64 && AllLowerHex(key)
      && forall i :: 0 <= i < 32 ==> key[2 * i..2 * i + 2] == ByteHex(bits[i])
  {
    var bits := Hkdf(kdf, text, masterSeed, RailgunDbLabel, 256);
    forall i | 0 <= i < 32 ensures HexEncode(bits)[2 * i..2 * i + 2] == ByteHex(bits[i]) {
      HexEncodeAt(bits, i);
    }
  }
}
