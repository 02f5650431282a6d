/**
 * The wallet's one IndexedDB object store (database 'veil-db', store
 * 'veil-wallet'), reached through idb-keyval: encrypted records and
 * public records live side by side under string keys.
 */
module Storage {
  import opened Wrappers
  import opened Bytes
  import opened Crypto
  import opened Json
  import opened Encryption

  /** A stored value: the ArrayBuffer of an encrypted record, or a public value kept as it was given. */
  datatype Record = Blob(bytes: seq<byte>) | Plain(value: Json)

  /** JavaScript truthiness of a stored value; an ArrayBuffer is an object, so always truthy. */
  predicate Truthy(r: Record) {
    match r
    case Blob(_) => true
    case Plain(v) => JsonTruthy(v)
  }

  /** getEncrypted on a store's contents: null for a missing or falsy value, else what decrypt makes of it. */
  function ReadEncrypted(entries: map<string, Record>, c: Cipher, key: string, encKey: CryptoKey): Result<Option<seq<byte>>, DecryptError> {
    if key !in entries || !Truthy(entries[key]) then Ok(None)
    else
      match entries[key]
      case Plain(_) => Err(Rejected)
      case Blob(bytes) =>
        match Decrypt(c, encKey, bytes)
        case None => Err(Rejected)
        case Some(data) => Ok(Some(data))
  }

  /** getEncryptedJSON on a store's contents. */
  function ReadEncryptedJson(entries: map<string, Record>, c: Cipher, codec: JsonCodec, text: TextCodec, key: string, encKey: CryptoKey)
    : Result<Option<Json>, DecryptError>
  {
    if key !in entries || !Truthy(entries[key]) then Ok(None)
    else
      match entries[key]
      case Plain(_) => Err(Rejected)
      case Blob(bytes) =>
        match DecryptJson(c, codec, text, encKey, bytes)
        case Err(e) => Err(e)
        case Ok(v) => Ok(Some(v))
  }

  /** getPublic on a store's contents: result ?? null, so a missing key and a stored null both read as null. */
  function ReadPublic(entries: map<string, Record>, key: string): Option<Record> {
    if key in entries && entries[key] != Plain(JNull) then Some(entries[key]) else None
  }

  class RecordStore {
    var entries: map<string, Record>
    /** Every set the store received, in order, with the record it stored; deletions are not logged. */
    ghost var puts: seq<(string, Record)>
    const cipher: Cipher
    const codec: JsonCodec
    const text: TextCodec

    constructor(cipher: Cipher, codec: JsonCodec, text: TextCodec)
      ensures entries == map[] && puts == []
      ensures this.cipher == cipher && this.codec == codec && this.text == text
    {
      entries := map[];
      puts := [];
      this.cipher := cipher;
      this.codec := codec;
      this.text := text;
    }

    /** setEncrypted: encrypt under a fresh IV, then set(key, encrypted). */
    method SetEncrypted(key: string, data: seq<byte>, encKey: CryptoKey, iv: seq<byte>)
      requires |iv| == IvLength
      modifies this
      ensures entries == old(entries)[key := Blob(Sealed(cipher, encKey, iv, data))]
      ensures puts == old(puts) + [(key, Blob(Sealed(cipher, encKey, iv, data)))]
    {
      var encrypted := Encrypt(cipher, encKey, data, iv);
      entries := entries[key := Blob(encrypted[..])];
      puts := puts + [(key, Blob(encrypted[..]))];
    }

    /** getEncrypted */
    method GetEncrypted(key: string, encKey: CryptoKey) returns (r: Result<Option<seq<byte>>, DecryptError>)
      ensures r == ReadEncrypted(entries, cipher, key, encKey)
    {
      if key !in entries {
        return Ok(None);
      }
      var encrypted := entries[key];
      if !Truthy(encrypted) {
        return Ok(None);
      }
      match encrypted
      case Plain(_) =>
        r := Err(Rejected);
      case Blob(bytes) =>
        var plain := Decrypt(cipher, encKey, bytes);
        r := if plain.Some? then Ok(Some(plain.value)) else Err(Rejected);
    }

    /** setEncryptedJSON: encryptJSON under a fresh IV, then set(key, encrypted). */
    method SetEncryptedJson(key: string, v: Json, encKey: CryptoKey, iv: seq<byte>)
      requires |iv| == IvLength
      modifies this
      ensures entries == old(entries)[key := Blob(SealedJson(cipher, codec, text, encKey, iv, v))]
      ensures puts == old(puts) + [(key, Blob(SealedJson(cipher, codec, text, encKey, iv, v)))]
    {
      var encrypted := EncryptJson(cipher, codec, text, encKey, v, iv);
      entries := entries[key := Blob(encrypted[..])];
      puts := puts + [(key, Blob(encrypted[..]))];
    }

    /** getEncryptedJSON */
    method GetEncryptedJson(key: string, encKey: CryptoKey) returns (r: Result<Option<Json>, DecryptError>)
      ensures r == ReadEncryptedJson(entries, cipher, codec, text, key, encKey)
    {
      if key !in entries || !Truthy(entries[key]) {
        return Ok(None);
      }
      match entries[key]
      case Plain(_) =>
        r := Err(Rejected);
      case Blob(bytes) =>
        var v := DecryptJson(cipher, codec, text, encKey, bytes);
        r := if v.Ok? then Ok(Some(v.value)) else Err(v.error);
    }

    /** setPublic: set(key, data) with no encryption. */
    method SetPublic(key: string, v: Json)
      modifies this
      ensures entries == old(entries)[key := Plain(v)]
      ensures puts == old(puts) + [(key, Plain(v))]
    {
      entries := entries[key := Plain(v)];
      puts := puts + [(key, Plain(v))];
    }

    /** getPublic */
    method GetPublic(key: string) returns (r: Option<Record>)
      ensures r == ReadPublic(entries, key)
    {
      if key in entries && entries[key] != Plain(JNull) {
        r := Some(entries[key]);
      } else {
        r := None;
      }
    }

    /** remove: del(key). */
    method Remove(key: string)
      modifies this
      ensures entries == old(entries) - {key} && puts == old(puts)
    {
      entries := entries - {key};
    }

    /** listKeys: every key of the store once each, in an order this model does not fix. */
    method ListKeys() returns (keys: seq<string>)
      ensures forall k :: k in keys <==> k in entries
      ensures forall i, j :: 0 <= i < j < |keys| ==> keys[i] != keys[j]
    {
      keys := [];
      var remaining := entries.Keys;
      while remaining != {}
        invariant remaining <= entries.Keys
        invariant forall k :: k in keys <==> k in entries && k !in remaining
        invariant forall i, j :: 0 <= i < j < |keys| ==> keys[i] != keys[j]
        decreases remaining
      {
        var k :| k in remaining;
        keys := keys + [k];
        remaining := remaining - {k};
      }
    }

    /** clearAll: del of every key listKeys returned, one after another. */
    method ClearAll()
      modifies this
      ensures entries == map[] && puts == old(puts)
    {
      var keys := ListKeys();
      for i := 0 to |keys|
        invariant forall k :: k in entries ==> k in keys[i..]
        invariant puts == old(puts)
      {
        entries := entries - {keys[i]};
      }
    }
  }

  /** An encrypted record reads back as the data written, under the key that encrypted it. */
  lemma SetThenGetEncrypted(entries: map<string, Record>, c: Cipher, key: string, data: seq<byte>, encKey: CryptoKey, iv: seq<byte>)
    requires c.Sound() && |iv| == IvLength
    ensures ReadEncrypted(entries[key := Blob(Sealed(c, encKey, iv, data))], c, key, encKey) == Ok(Some(data))
  {
    DecryptEncrypt(c, encKey, iv, data);
  }

  /** An encrypted JSON record reads back as the value written. */
  lemma SetThenGetEncryptedJson(entries: map<string, Record>, c: Cipher, codec: JsonCodec, text: TextCodec,
                                key: string, v: Json, encKey: CryptoKey, iv: seq<byte>)
    requires c.Sound() && codec.Sound() && text.Sound() && |iv| == IvLength
    ensures ReadEncryptedJson(entries[key := Blob(SealedJson(c, codec, text, encKey, iv, v))], c, codec, text, key, encKey) == Ok(Some(v))
  {
    DecryptJsonRoundTrip(c, codec, text, encKey, iv, v);
  }

  /** Reading a key that was never written gives null, from every reader. */
  lemma AbsentReadsNull(entries: map<string, Record>, c: Cipher, codec: JsonCodec, text: TextCodec, key: string, encKey: CryptoKey)
    requires key !in entries
    ensures ReadEncrypted(entries, c, key, encKey) == Ok(None)
    ensures ReadEncryptedJson(entries, c, codec, text, key, encKey) == Ok(None)
    ensures ReadPublic(entries, key) == None
  {
  }

  /** A public value reads back as written, except null, which reads as null anyway. */
  lemma SetThenGetPublic(entries: map<string, Record>, key: string, v: Json)
    ensures var r := ReadPublic(entries[key := Plain(v)], key);
      && (v != JNull ==> r == Some(Plain(v)))
      && (v == JNull ==> r == None)
  {
  }

  /** A write under one key changes no reader's answer for any other key. */
  lemma WriteIsolated(entries: map<string, Record>, c: Cipher, codec: JsonCodec, text: TextCodec,
                      key: string, r: Record, other: string, encKey: CryptoKey)
    requires other != key
    ensures var e := entries[key := r];
      && ReadEncrypted(e, c, other, encKey) == ReadEncrypted(entries, c, other, encKey)
      && ReadEncryptedJson(e, c, codec, text, other, encKey) == ReadEncryptedJson(entries, c, codec, text, other, encKey)
      && ReadPublic(e, other) == ReadPublic(entries, other)
  {
    var e := entries[key := r];
    assert (other in e) == (other in entries);
    if other in entries {
      assert e[other] == entries[other];
    }
  }

  /** Public and encrypted records share the key space: a public write hides any encrypted record under its key. */
  lemma PublicOverwritesEncrypted(entries: map<string, Record>, c: Cipher, key: string, v: Json, encKey: CryptoKey)
    ensures var r := ReadEncrypted(entries[key := Plain(v)], c, key, encKey);
      r == Ok(None) || r == Err(Rejected)
  {
  }

  /** ... and an encrypted write replaces any public value under its key. */
  lemma EncryptedOverwritesPublic(entries: map<string, Record>, key: string, bytes: seq<byte>)
    ensures ReadPublic(entries[key := Blob(bytes)], key) == Some(Blob(bytes))
  {
  }

  /** After remove, the key reads as null and nothing else changed. */
  lemma RemoveReadsNull(entries: map<string, Record>, key: string, other: string)
    ensures ReadPublic(entries - {key}, key) == None
    ensures other != key ==> ReadPublic(entries - {key}, other) == ReadPublic(entries, other)
  {
  }
}
