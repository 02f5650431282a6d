/**
 * The wallet's life cycle on one device: creating a wallet from the
 * authentication secret, importing one from a 12-word mnemonic, telling
 * whether one exists, and loading it again on a later start. The Railgun
 * SDK, the BIP-39 word list and viem's account derivation are oracles.
 */
module Wallet {
  import opened Wrappers
  import opened Bytes
  import opened JsText
  import opened Crypto
  import opened Json
  import opened Encryption
  import opened Storage
  import opened Derive

  /** What createRailgunWallet reports: the wallet's id and its 0zk address. */
  datatype RailgunWallet = RailgunWallet(id: string, railgunAddress: string)

  /**
   * The code the wallet calls and cannot see: the Web Crypto primitives and
   * codecs, Mnemonic.fromEntropy(...).phrase, privateKeyToAccount(...).address
   * (None where viem throws), and createRailgunWallet with the { Polygon: 0 }
   * creation blocks (Err with the message where the SDK throws).
   */
  datatype Platform = Platform(
    kdf: Kdf, text: TextCodec, cipher: Cipher, codec: JsonCodec,
    mnemonicFromEntropy: seq<byte> -> string,
    privateKeyToAccount: string -> Option<string>,
    createRailgunWallet: (string, Json) -> Result<RailgunWallet, string>)
  {
    ghost predicate Sound() {
      kdf.Sound() && text.Sound() && cipher.Sound() && codec.Sound()
    }
  }

  /** CreateWalletResult. The addresses are JSON values because loadWallet returns whatever the stored secrets hold. */
  datatype WalletInfo = WalletInfo(
    smartWalletAddress: Json, railgunAddress: Json, walletId: string,
    railgunEncryptionKey: string, chain: string)

  /** Why an operation throws. */
  datatype WalletError =
    | WrongWordCount
    | NoWallet
    | NoWalletId
    | Unreadable(cause: DecryptError)
    | RailgunFailed(message: string)
    | InvalidOwnerKey

  /** The message of each error the wallet code throws itself. */
  function Message(e: WalletError): Option<string> {
    match e
    case WrongWordCount => Some("Mnemonic must be exactly 12 words")
    case NoWallet => Some("No wallet found. Create a wallet first.")
    case NoWalletId => Some("Wallet ID not found. Re-create wallet.")
    case RailgunFailed(m) => Some(m)
    case _ => None
  }

  const SecretsKey: string := "wallet-secrets"
  const StateKey: string := "wallet-state"
  const IdKey: string := "wallet-id"
  const RailgunKeyKey: string := "railgun-enc-key"
  const ExistsKey: string := "wallet-exists"

  /** The private key viem is given: 0x and the owner key bytes in lowercase hexadecimal. */
  function OwnerKeyHex(ownerKeyBytes: seq<byte>): string {
    "0x" + HexEncode(ownerKeyBytes)
  }

  /** For the 32 derived bytes the key is 66 characters: 0x, then 64 lowercase digits that read back as the bytes. */
  lemma OwnerKeyHexShape(ownerKeyBytes: seq<byte>)
    requires |ownerKeyBytes| == 32
    ensures var h := OwnerKeyHex(ownerKeyBytes);
      && |h| == 66 && h[..2] == "0x" && AllLowerHex(h[2..])
      && HexDecode(h[2..]) == Some(ownerKeyBytes)
  {
    var h := OwnerKeyHex(ownerKeyBytes);
    assert h[2..] == HexEncode(ownerKeyBytes);
    HexRoundTrip(ownerKeyBytes);
  }

  /** WalletSecrets as stored under 'wallet-secrets'. */
  function SecretsJson(mnemonic: string, ownerKeyHex: string, smartWalletAddress: string, railgunAddress: string): Json {
    JObject(map[
      "mnemonic" := JString(mnemonic),
      "ownerKeyHex" := JString(ownerKeyHex),
      "smartWalletAddress" := JString(smartWalletAddress),
      "railgunAddress" := JString(railgunAddress)])
  }

  /** WalletState as stored under 'wallet-state'; an empty ArrayBuffer stringifies as {}. */
  function StateJson(smartWalletAddress: string, railgunAddress: string, chain: string, createdAt: int): Json {
    JObject(map[
      "smartWalletAddress" := JString(smartWalletAddress),
      "railgunAddress" := JString(railgunAddress),
      "encryptedMnemonic" := JObject(map[]),
      "encryptedOwnerKey" := JObject(map[]),
      "chain" := JString(chain),
      "createdAt" := JNumber(createdAt)])
  }

  /** The foreign calls of _buildWallet: the Railgun wallet, then the owner's address. */
  function Prepare(p: Platform, masterSeed: seq<byte>, mnemonic: string): Result<(RailgunWallet, string), WalletError> {
    match p.createRailgunWallet(DeriveRailgunEncryptionKey(p.kdf, p.text, masterSeed), JString(mnemonic))
    case Err(m) => Err(RailgunFailed(m))
    case Ok(w) =>
      match p.privateKeyToAccount(OwnerKeyHex(DeriveOwnerKeyBytes(p.kdf, p.text, masterSeed)))
      case None => Err(InvalidOwnerKey)
      case Some(address) => Ok((w, address))
  }

  /** What _buildWallet returns. */
  function BuildOutcome(p: Platform, masterSeed: seq<byte>, mnemonic: string, chain: string): Result<WalletInfo, WalletError> {
    match Prepare(p, masterSeed, mnemonic)
    case Err(e) => Err(e)
    case Ok((w, address)) =>
      Ok(WalletInfo(JString(address), JString(w.railgunAddress), w.id, DeriveRailgunEncryptionKey(p.kdf, p.text, masterSeed), chain))
  }

  /** The five records _buildWallet writes, in order; iv1 and iv2 stand for the two random IVs, now for Date.now(). */
  function WalletWrites(p: Platform, masterSeed: seq<byte>, mnemonic: string, chain: string, now: int,
                        iv1: seq<byte>, iv2: seq<byte>, w: RailgunWallet, address: string): seq<(string, Record)>
  {
    var encKey := DeriveEncryptionKey(p.kdf, p.text, masterSeed);
    var ownerKeyHex := OwnerKeyHex(DeriveOwnerKeyBytes(p.kdf, p.text, masterSeed));
    [ (SecretsKey, Blob(SealedJson(p.cipher, p.codec, p.text, encKey, iv1, SecretsJson(mnemonic, ownerKeyHex, address, w.railgunAddress)))),
      (StateKey, Blob(SealedJson(p.cipher, p.codec, p.text, encKey, iv2, StateJson(address, w.railgunAddress, chain, now)))),
      (IdKey, Plain(JString(w.id))),
      (RailgunKeyKey, Plain(JString(DeriveRailgunEncryptionKey(p.kdf, p.text, masterSeed)))),
      (ExistsKey, Plain(JBool(true))) ]
  }

  /** The store after a sequence of writes, one after another. */
  function ApplyWrites(entries: map<string, Record>, writes: seq<(string, Record)>): map<string, Record> {
    if writes == [] then entries
    else ApplyWrites(entries, writes[..|writes| - 1])[writes[|writes| - 1].0 := writes[|writes| - 1].1]
  }

  /** checkWalletExists on a store's contents: the public flag is exactly true. */
  predicate WalletExists(entries: map<string, Record>) {
    ReadPublic(entries, ExistsKey) == Some(Plain(JBool(true)))
  }

  /** One more write on top of a prefix of the plan. */
  lemma PrefixStep(entries: map<string, Record>, ws: seq<(string, Record)>, k: nat)
    requires k < |ws|
    ensures ApplyWrites(entries, ws[..k + 1]) == ApplyWrites(entries, ws[..k])[ws[k].0 := ws[k].1]
  {
    assert ws[..k + 1][..k] == ws[..k];
  }

  /** The keys of the plan: the existence flag is written last and under no other key. */
  lemma WalletWritesKeys(p: Platform, masterSeed: seq<byte>, mnemonic: string, chain: string, now: int,
                         iv1: seq<byte>, iv2: seq<byte>, w: RailgunWallet, address: string)
    ensures var ws := WalletWrites(p, masterSeed, mnemonic, chain, now, iv1, iv2, w, address);
      && |ws| == 5
      && ws[0].0 == SecretsKey && ws[1].0 == StateKey && ws[2].0 == IdKey && ws[3].0 == RailgunKeyKey
      && ws[4] == (ExistsKey, Plain(JBool(true)))
  {
  }

  /** Writes under other keys do not change checkWalletExists; the flag written last makes it true. */
  lemma {:induction false} FlagLast(entries: map<string, Record>, ws: seq<(string, Record)>, k: nat)
    requires k <= |ws| == 5
    requires forall i :: 0 <= i < 4 ==> ws[i].0 != ExistsKey
    requires ws[4] == (ExistsKey, Plain(JBool(true)))
    ensures k < 5 ==> WalletExists(ApplyWrites(entries, ws[..k])) == WalletExists(entries)
    ensures k == 5 ==> WalletExists(ApplyWrites(entries, ws[..k]))
  {
    if k > 0 {
      FlagLast(entries, ws, k - 1);
      PrefixStep(entries, ws, k - 1);
    } else {
      assert ws[..0] == [];
    }
  }

  /**
   * The existence flag is the last write: a build interrupted after any of
   * its first four writes leaves checkWalletExists as it was, and the whole
   * build makes it true.
   */
  lemma ExistsWrittenLast(p: Platform, masterSeed: seq<byte>, mnemonic: string, chain: string, now: int,
                          iv1: seq<byte>, iv2: seq<byte>, w: RailgunWallet, address: string,
                          entries: map<string, Record>, k: nat)
    requires k <= 5
    ensures var ws := WalletWrites(p, masterSeed, mnemonic, chain, now, iv1, iv2, w, address);
      && (k < 5 ==> WalletExists(ApplyWrites(entries, ws[..k])) == WalletExists(entries))
      && (k == 5 ==> WalletExists(ApplyWrites(entries, ws[..k])))
  {
    WalletWritesKeys(p, masterSeed, mnemonic, chain, now, iv1, iv2, w, address);
    FlagLast(entries, WalletWrites(p, masterSeed, mnemonic, chain, now, iv1, iv2, w, address), k);
  }

  /** The words importWallet counts: mnemonic.trim().split(/\s+/). */
  function Words(mnemonic: string): seq<string> {
    SplitWhiteSpace(Trim(mnemonic))
  }

  /** An accepted mnemonic is twelve non-empty words with no white space in them. */
  lemma AcceptedWords(mnemonic: string)
    requires |Words(mnemonic)| == 12
    ensures forall k :: 0 <= k < 12 ==> Words(mnemonic)[k] != "" && NoWhiteSpace(Words(mnemonic)[k])
  {
    var t := Trim(mnemonic);
    TrimShape(mnemonic);
    assert t != "";
    SplitWhiteSpaceWords(t);
  }

  /** An empty or all-white-space phrase is one empty word, so it is refused. */
  lemma BlankRefused(mnemonic: string)
    requires AllWhiteSpace(mnemonic)
    ensures Words(mnemonic) == [""]
  {
    TrimShape(mnemonic);
  }

  /** _buildWallet: derive the keys, create the Railgun wallet, derive the owner's address, then write the five records. */
  method BuildWallet(store: RecordStore, p: Platform, masterSeed: seq<byte>, mnemonic: string, chain: string, now: int,
                     iv1: seq<byte>, iv2: seq<byte>)
    returns (r: Result<WalletInfo, WalletError>)
    requires |iv1| == IvLength && |iv2| == IvLength
    requires store.cipher == p.cipher && store.codec == p.codec && store.text == p.text
    modifies store
    ensures r == BuildOutcome(p, masterSeed, mnemonic, chain)
    ensures Prepare(p, masterSeed, mnemonic).Err? ==> store.entries == old(store.entries) && store.puts == old(store.puts)
    ensures Prepare(p, masterSeed, mnemonic).Ok? ==>
      var (w, address) := Prepare(p, masterSeed, mnemonic).value;
      var ws := WalletWrites(p, masterSeed, mnemonic, chain, now, iv1, iv2, w, address);
      store.puts == old(store.puts) + ws && store.entries == ApplyWrites(old(store.entries), ws)
  {
    var encKey := DeriveEncryptionKey(p.kdf, p.text, masterSeed);
    var railgunEncKey := DeriveRailgunEncryptionKey(p.kdf, p.text, masterSeed);
    var ownerKeyBytes := DeriveOwnerKeyBytes(p.kdf, p.text, masterSeed);
    var created := p.createRailgunWallet(railgunEncKey, JString(mnemonic));
    if created.Err? {
      return Err(RailgunFailed(created.error));
    }
    var railgunWallet := created.value;
    var ownerKeyHex := OwnerKeyHex(ownerKeyBytes);
    var account := p.privateKeyToAccount(ownerKeyHex);
    if account.None? {
      return Err(InvalidOwnerKey);
    }
    var smartWalletAddress := account.value;
    ghost var ws := WalletWrites(p, masterSeed, mnemonic, chain, now, iv1, iv2, railgunWallet, smartWalletAddress);
    ghost var e0 := store.entries;
    store.SetEncryptedJson(SecretsKey, SecretsJson(mnemonic, ownerKeyHex, smartWalletAddress, railgunWallet.railgunAddress), encKey, iv1);
    store.SetEncryptedJson(StateKey, StateJson(smartWalletAddress, railgunWallet.railgunAddress, chain, now), encKey, iv2);
    store.SetPublic(IdKey, JString(railgunWallet.id));
    store.SetPublic(RailgunKeyKey, JString(railgunEncKey));
    store.SetPublic(ExistsKey, JBool(true));
    FiveWrites(e0, ws);
    assert store.puts == old(store.puts) + ws;
    r := Ok(WalletInfo(JString(smartWalletAddress), JString(railgunWallet.railgunAddress), railgunWallet.id, railgunEncKey, chain));
  }

  lemma FiveWrites(e: map<string, Record>, ws: seq<(string, Record)>)
    requires |ws| == 5
    ensures ApplyWrites(e, ws) == e[ws[0].0 := ws[0].1][ws[1].0 := ws[1].1][ws[2].0 := ws[2].1][ws[3].0 := ws[3].1][ws[4].0 := ws[4].1]
  {
    assert ws[..0] == [];
    PrefixStep(e, ws, 0);
    PrefixStep(e, ws, 1);
    PrefixStep(e, ws, 2);
    PrefixStep(e, ws, 3);
    PrefixStep(e, ws, 4);
    assert ws[..5] == ws;
  }

  /** The seed createWallet works from: deriveMasterSeed with the salt laid out from the secret. */
  function MasterSeed(p: Platform, authSecret: seq<byte>): seq<byte> {
    DeriveMasterSeed(p.kdf, authSecret, None)
  }

  /** The phrase createWallet generates: the BIP-39 words of the mnemonic entropy. */
  function GeneratedMnemonic(p: Platform, authSecret: seq<byte>): string {
    p.mnemonicFromEntropy(DeriveMnemonicEntropy(p.kdf, p.text, MasterSeed(p, authSecret)))
  }

  /** The master seed in a fresh buffer, new Uint8Array(bits). */
  method SeedBuffer(p: Platform, authSecret: seq<byte>) returns (seed: array<byte>)
    ensures fresh(seed) && seed[..] == MasterSeed(p, authSecret)
  {
    var bits := MasterSeed(p, authSecret);
    seed := new byte[|bits|](i requires 0 <= i < |bits| => bits[i]);
  }

  /**
   * createWallet: the mnemonic comes from the seed itself, so the same secret
   * gives the same wallet. The seed buffer is zeroed however the build ends.
   */
  method CreateWallet(store: RecordStore, p: Platform, authSecret: seq<byte>, chain: string, now: int,
                      iv1: seq<byte>, iv2: seq<byte>)
    returns (r: Result<WalletInfo, WalletError>, ghost seed: array<byte>)
    requires |iv1| == IvLength && |iv2| == IvLength
    requires store.cipher == p.cipher && store.codec == p.codec && store.text == p.text
    modifies store
    ensures fresh(seed) && seed.Length == |MasterSeed(p, authSecret)| && seed[..] == ZeroBytes(seed.Length)
    ensures var s, m := MasterSeed(p, authSecret), GeneratedMnemonic(p, authSecret);
      && r == BuildOutcome(p, s, m, chain)
      && (Prepare(p, s, m).Err? ==> store.entries == old(store.entries) && store.puts == old(store.puts))
      && (Prepare(p, s, m).Ok? ==>
            var ws := WalletWrites(p, s, m, chain, now, iv1, iv2, Prepare(p, s, m).value.0, Prepare(p, s, m).value.1);
            store.puts == old(store.puts) + ws && store.entries == ApplyWrites(old(store.entries), ws))
  {
    var masterSeed := SeedBuffer(p, authSecret);
    var mnemonicEntropy := DeriveMnemonicEntropy(p.kdf, p.text, masterSeed[..]);
    var mnemonic := p.mnemonicFromEntropy(mnemonicEntropy);
    r := BuildWallet(store, p, masterSeed[..], mnemonic, chain, now, iv1, iv2);
    Zeroize(masterSeed);
    seed := masterSeed;
  }

  /**
   * importWallet: a phrase that is not twelve words is refused before any key
   * is derived or anything written; otherwise the trimmed phrase is built
   * under the seed of the secret, and the seed buffer is zeroed.
   */
  method ImportWallet(store: RecordStore, p: Platform, authSecret: seq<byte>, mnemonic: string, chain: string, now: int,
                      iv1: seq<byte>, iv2: seq<byte>)
    returns (r: Result<WalletInfo, WalletError>, ghost seed: Option<array<byte>>)
    requires |iv1| == IvLength && |iv2| == IvLength
    requires store.cipher == p.cipher && store.codec == p.codec && store.text == p.text
    modifies store
    ensures |Words(mnemonic)| != 12 ==>
      r == Err(WrongWordCount) && seed == None && store.entries == old(store.entries) && store.puts == old(store.puts)
    ensures |Words(mnemonic)| == 12 ==>
      && seed.Some? && fresh(seed.value) && seed.value.Length == |MasterSeed(p, authSecret)|
      && seed.value[..] == ZeroBytes(seed.value.Length)
      && var s, m := MasterSeed(p, authSecret), Trim(mnemonic);
      && r == BuildOutcome(p, s, m, chain)
      && (Prepare(p, s, m).Err? ==> store.entries == old(store.entries) && store.puts == old(store.puts))
      && (Prepare(p, s, m).Ok? ==>
            var ws := WalletWrites(p, s, m, chain, now, iv1, iv2, Prepare(p, s, m).value.0, Prepare(p, s, m).value.1);
            store.puts == old(store.puts) + ws && store.entries == ApplyWrites(old(store.entries), ws))
  {
    var words := SplitWhiteSpace(Trim(mnemonic));
    if |words| != 12 {
      return Err(WrongWordCount), None;
    }
    var masterSeed := SeedBuffer(p, authSecret);
    r := BuildWallet(store, p, masterSeed[..], Trim(mnemonic), chain, now, iv1, iv2);
    Zeroize(masterSeed);
    seed := Some(masterSeed);
  }

  /** checkWalletExists */
  method CheckWalletExists(store: RecordStore) returns (exists_: bool)
    ensures exists_ == WalletExists(store.entries)
  {
    var flag := store.GetPublic(ExistsKey);
    exists_ := flag == Some(Plain(JBool(true)));
  }

  /** What loadWallet makes of a store's contents under a master seed. */
  function LoadOutcome(p: Platform, entries: map<string, Record>, masterSeed: seq<byte>): Result<WalletInfo, WalletError> {
    var encKey := DeriveEncryptionKey(p.kdf, p.text, masterSeed);
    match ReadEncryptedJson(entries, p.cipher, p.codec, p.text, SecretsKey, encKey)
    case Err(e) => Err(Unreadable(e))
    case Ok(None) => Err(NoWallet)
    case Ok(Some(secrets)) =>
      if !JsonTruthy(secrets) then Err(NoWallet)
      else
        var walletId := ReadPublic(entries, IdKey);
        if walletId.None? || !Truthy(walletId.value) then Err(NoWalletId)
        else
          var railgunEncKey := DeriveRailgunEncryptionKey(p.kdf, p.text, masterSeed);
          match p.createRailgunWallet(railgunEncKey, Field(secrets, "mnemonic"))
          case Err(m) => Err(RailgunFailed(m))
          case Ok(w) => Ok(WalletInfo(Field(secrets, "smartWalletAddress"), Field(secrets, "railgunAddress"), w.id, railgunEncKey, "polygon"))
  }

  /** loadWallet: reads the store and changes nothing in it; the seed buffer is zeroed. */
  method LoadWallet(store: RecordStore, p: Platform, authSecret: seq<byte>)
    returns (r: Result<WalletInfo, WalletError>, ghost seed: array<byte>)
    requires store.cipher == p.cipher && store.codec == p.codec && store.text == p.text
    ensures fresh(seed) && seed.Length == |MasterSeed(p, authSecret)| && seed[..] == ZeroBytes(seed.Length)
    ensures r == LoadOutcome(p, store.entries, MasterSeed(p, authSecret))
  {
    var masterSeed := SeedBuffer(p, authSecret);
    var encKey := DeriveEncryptionKey(p.kdf, p.text, masterSeed[..]);
    var read := store.GetEncryptedJson(SecretsKey, encKey);
    if read.Err? {
      r := Err(Unreadable(read.error));
    } else if read.value.None? || !JsonTruthy(read.value.value) {
      r := Err(NoWallet);
    } else {
      var secrets := read.value.value;
      var walletId := store.GetPublic(IdKey);
      if walletId.None? || !Truthy(walletId.value) {
        r := Err(NoWalletId);
      } else {
        var railgunEncKey := DeriveRailgunEncryptionKey(p.kdf, p.text, masterSeed[..]);
        var railgunWallet := p.createRailgunWallet(railgunEncKey, Field(secrets, "mnemonic"));
        if railgunWallet.Err? {
          r := Err(RailgunFailed(railgunWallet.error));
        } else {
          r := Ok(WalletInfo(Field(secrets, "smartWalletAddress"), Field(secrets, "railgunAddress"),
                             railgunWallet.value.id, railgunEncKey, "polygon"));
        }
      }
    }
    Zeroize(masterSeed);
    seed := masterSeed;
  }

  /** Without a 'wallet-secrets' record, loading fails with "No wallet found". */
  lemma LoadWithoutSecrets(p: Platform, entries: map<string, Record>, masterSeed: seq<byte>)
    requires SecretsKey !in entries
    ensures LoadOutcome(p, entries, masterSeed) == Err(NoWallet)
  {
  }

  /** Secrets sealed under another seed's key are rejected, not read. */
  lemma LoadRejectsForeignRecord(p: Platform, entries: map<string, Record>, masterSeed: seq<byte>)
    requires SecretsKey in entries && entries[SecretsKey].Blob?
    requires Decrypt(p.cipher, DeriveEncryptionKey(p.kdf, p.text, masterSeed), entries[SecretsKey].bytes).None?
    ensures LoadOutcome(p, entries, masterSeed) == Err(Unreadable(Rejected))
  {
  }

  /** Readable secrets without a wallet id fail with "Wallet ID not found", before the SDK is called. */
  lemma LoadWithoutId(p: Platform, entries: map<string, Record>, masterSeed: seq<byte>)
    requires IdKey !in entries
    requires ReadEncryptedJson(entries, p.cipher, p.codec, p.text, SecretsKey, DeriveEncryptionKey(p.kdf, p.text, masterSeed)).Ok?
    ensures LoadOutcome(p, entries, masterSeed) == Err(NoWallet) || LoadOutcome(p, entries, masterSeed) == Err(NoWalletId)
  {
  }

  /**
   * A completed build loads again: the same seed reads the secrets back, the
   * stored mnemonic re-creates the same Railgun wallet, and loading returns
   * what the build returned, with the chain always 'polygon'. This needs the
   * SDK's wallet id to be non-empty: an empty id is stored, but loadWallet
   * reads it as missing.
   */
  lemma BuildThenLoad(p: Platform, masterSeed: seq<byte>, mnemonic: string, chain: string, now: int,
                      iv1: seq<byte>, iv2: seq<byte>, w: RailgunWallet, address: string, entries: map<string, Record>)
    requires p.Sound() && |iv1| == IvLength && |iv2| == IvLength
    requires Prepare(p, masterSeed, mnemonic) == Ok((w, address)) && w.id != ""
    ensures var after := ApplyWrites(entries, WalletWrites(p, masterSeed, mnemonic, chain, now, iv1, iv2, w, address));
      && LoadOutcome(p, after, masterSeed) == BuildOutcome(p, masterSeed, mnemonic, "polygon")
      && WalletExists(after)
  {
    var ownerKeyHex := OwnerKeyHex(DeriveOwnerKeyBytes(p.kdf, p.text, masterSeed));
    var after := ApplyWrites(entries, WalletWrites(p, masterSeed, mnemonic, chain, now, iv1, iv2, w, address));
    BuiltReads(p, masterSeed, mnemonic, chain, now, iv1, iv2, w, address, entries);
    SecretsFields(mnemonic, ownerKeyHex, address, w.railgunAddress);
    LoadReadable(p, after, masterSeed, SecretsJson(mnemonic, ownerKeyHex, address, w.railgunAddress));
  }

  /** After a build, the secrets read back under the seed's key, and the id and the flag as written. */
  lemma BuiltReads(p: Platform, masterSeed: seq<byte>, mnemonic: string, chain: string, now: int,
                   iv1: seq<byte>, iv2: seq<byte>, w: RailgunWallet, address: string, entries: map<string, Record>)
    requires p.Sound() && |iv1| == IvLength && |iv2| == IvLength
    ensures var after := ApplyWrites(entries, WalletWrites(p, masterSeed, mnemonic, chain, now, iv1, iv2, w, address));
      var ownerKeyHex := OwnerKeyHex(DeriveOwnerKeyBytes(p.kdf, p.text, masterSeed));
      && ReadEncryptedJson(after, p.cipher, p.codec, p.text, SecretsKey, DeriveEncryptionKey(p.kdf, p.text, masterSeed))
           == Ok(Some(SecretsJson(mnemonic, ownerKeyHex, address, w.railgunAddress)))
      && ReadPublic(after, IdKey) == Some(Plain(JString(w.id)))
      && WalletExists(after)
  {
    var ws := WalletWrites(p, masterSeed, mnemonic, chain, now, iv1, iv2, w, address);
    var encKey := DeriveEncryptionKey(p.kdf, p.text, masterSeed);
    var secrets := SecretsJson(mnemonic, OwnerKeyHex(DeriveOwnerKeyBytes(p.kdf, p.text, masterSeed)), address, w.railgunAddress);
    WalletWritesKeys(p, masterSeed, mnemonic, chain, now, iv1, iv2, w, address);
    FiveWrites(entries, ws);
    var after := ApplyWrites(entries, ws);
    ReadBack(entries, ws[0].1, ws[1].1, ws[2].1, ws[3].1, ws[4].1);
    SetThenGetEncryptedJson(entries, p.cipher, p.codec, p.text, SecretsKey, secrets, encKey, iv1);
    SameRecord(after, entries[SecretsKey := ws[0].1], p, SecretsKey, encKey);
  }

  /** Once the secrets and the id both read, what loadWallet returns is up to the Railgun SDK alone. */
  lemma LoadReadable(p: Platform, entries: map<string, Record>, masterSeed: seq<byte>, secrets: Json)
    requires ReadEncryptedJson(entries, p.cipher, p.codec, p.text, SecretsKey, DeriveEncryptionKey(p.kdf, p.text, masterSeed)) == Ok(Some(secrets))
    requires JsonTruthy(secrets)
    requires ReadPublic(entries, IdKey).Some? && Truthy(ReadPublic(entries, IdKey).value)
    ensures var key := DeriveRailgunEncryptionKey(p.kdf, p.text, masterSeed);
      var created := p.createRailgunWallet(key, Field(secrets, "mnemonic"));
      && (created.Err? ==> LoadOutcome(p, entries, masterSeed) == Err(RailgunFailed(created.error)))
      && (created.Ok? ==>
            LoadOutcome(p, entries, masterSeed) ==
            Ok(WalletInfo(Field(secrets, "smartWalletAddress"), Field(secrets, "railgunAddress"), created.value.id, key, "polygon")))
  {
  }

  /** The five records of a build, read back from the store it leaves. */
  lemma ReadBack(e: map<string, Record>, v0: Record, v1: Record, v2: Record, v3: Record, v4: Record)
    ensures var after := e[SecretsKey := v0][StateKey := v1][IdKey := v2][RailgunKeyKey := v3][ExistsKey := v4];
      && SecretsKey in after && after[SecretsKey] == v0
      && IdKey in after && after[IdKey] == v2
  {
  }

  /** Readers look at one key only. */
  lemma SameRecord(a: map<string, Record>, b: map<string, Record>, p: Platform, key: string, encKey: CryptoKey)
    requires key in a && key in b && a[key] == b[key]
    ensures ReadEncryptedJson(a, p.cipher, p.codec, p.text, key, encKey) == ReadEncryptedJson(b, p.cipher, p.codec, p.text, key, encKey)
  {
  }

  /** The stored secrets are a truthy object holding the phrase and both addresses. */
  lemma SecretsFields(mnemonic: string, ownerKeyHex: string, smartWalletAddress: string, railgunAddress: string)
    ensures var v := SecretsJson(mnemonic, ownerKeyHex, smartWalletAddress, railgunAddress);
      && JsonTruthy(v)
      && Field(v, "mnemonic") == JString(mnemonic)
      && Field(v, "smartWalletAddress") == JString(smartWalletAddress)
      && Field(v, "railgunAddress") == JString(railgunAddress)
  {
  }
}
