/**
 * View keys for compliance and auditing: a record naming the kind of key,
 * the engine's shareable viewing key, the wallet's 0zk address and the
 * chain, shared as base64 of its JSON text.
 */
module ViewKeys {
  import opened Wrappers
  import opened Json
  import opened Base64

  datatype ViewKeyType = Full | Balance | Single

  function TypeName(t: ViewKeyType): string {
    match t
    case Full => "full"
    case Balance => "balance"
    case Single => "single"
  }

  /** The view key record; txHash is the optional property. */
  datatype ViewKey = ViewKey(kind: ViewKeyType, key: string, walletAddress: string, chainId: int, txHash: Option<string>)

  /**
   * generateViewKey. The engine's getWalletShareableViewingKey is a parameter;
   * the transaction hash is kept only for a single-transaction key and only
   * when it is a non-empty (truthy) string.
   */
  function GenerateViewKey(shareableViewingKey: string -> string, walletId: string, kind: ViewKeyType,
                           chainId: int, walletAddress: string, txHash: Option<string>): (v: ViewKey)
    ensures v.kind == kind && v.key == shareableViewingKey(walletId)
    ensures v.walletAddress == walletAddress && v.chainId == chainId
    ensures v.txHash.Some? <==> kind == Single && txHash.Some? && txHash.value != ""
    ensures v.txHash.Some? ==> v.txHash == txHash
  {
    ViewKey(kind, shareableViewingKey(walletId), walletAddress, chainId,
            if kind == Single && txHash.Some? && txHash.value != "" then txHash else None)
  }

  /** The object JSON.stringify sees; an absent txHash is no property at all. */
  function ToJson(v: ViewKey): Json {
    var fields := map[
      "type" := JString(TypeName(v.kind)),
      "key" := JString(v.key),
      "walletAddress" := JString(v.walletAddress),
      "chainId" := JNumber(v.chainId)];
    JObject(if v.txHash.Some? then fields["txHash" := JString(v.txHash.value)] else fields)
  }

  function TypeOf(name: string): Option<ViewKeyType> {
    if name == "full" then Some(Full)
    else if name == "balance" then Some(Balance)
    else if name == "single" then Some(Single)
    else None
  }

  lemma TypeOfName(t: ViewKeyType)
    ensures TypeOf(TypeName(t)) == Some(t)
  {
  }

  /**
   * A reference reader of the record back from JSON. deserializeViewKey
   * itself does no such check: its cast accepts any parsed value.
   */
  function FromJson(j: Json): Option<ViewKey> {
    if !j.JObject? then None
    else
      var f := j.fields;
      if "type" !in f || "key" !in f || "walletAddress" !in f || "chainId" !in f then None
      else if !f["type"].JString? || !f["key"].JString? || !f["walletAddress"].JString? || !f["chainId"].JNumber? then None
      else if "txHash" in f && !f["txHash"].JString? then None
      else
        match TypeOf(f["type"].s)
        case None => None
        case Some(kind) =>
          Some(ViewKey(kind, f["key"].s, f["walletAddress"].s, f["chainId"].n,
                       if "txHash" in f then Some(f["txHash"].s) else None))
  }

  /** The JSON form holds every field of the record. */
  lemma FromToJson(v: ViewKey)
    ensures FromJson(ToJson(v)) == Some(v)
  {
    TypeOfName(v.kind);
    var f := ToJson(v).fields;
    assert "type" in f && f["type"] == JString(TypeName(v.kind));
    assert ("txHash" in f) == v.txHash.Some?;
  }

  /** serializeViewKey: btoa(JSON.stringify(viewKey)); None where btoa throws on a character above U+00FF. */
  function Serialize(codec: JsonCodec, v: ViewKey): Option<string> {
    Btoa(codec.stringify(ToJson(v)))
  }

  /** deserializeViewKey: JSON.parse(atob(encoded)), unchecked; None where atob or JSON.parse throws. */
  function Deserialize(codec: JsonCodec, encoded: string): Option<Json> {
    match Atob(encoded)
    case None => None
    case Some(text) => codec.parse(text)
  }

  /** Serializing fails exactly when the JSON text has a character btoa cannot take. */
  lemma SerializeDefined(codec: JsonCodec, v: ViewKey)
    ensures Serialize(codec, v).Some? <==> IsLatin1(codec.stringify(ToJson(v)))
  {
  }

  /** A serialized key deserializes to the same JSON, which reads back as the same view key. */
  lemma DeserializeSerialize(codec: JsonCodec, v: ViewKey)
    requires codec.Sound()
    requires Serialize(codec, v).Some?
    ensures Deserialize(codec, Serialize(codec, v).value) == Some(ToJson(v))
    ensures FromJson(Deserialize(codec, Serialize(codec, v).value).value) == Some(v)
  {
    AtobBtoa(codec.stringify(ToJson(v)));
    FromToJson(v);
  }

  /** The shared text is standard base64: alphabet characters, then at most two '=', in groups of four. */
  lemma SerializedIsBase64(codec: JsonCodec, v: ViewKey)
    requires Serialize(codec, v).Some?
    ensures var e := Serialize(codec, v).value;
      && |e| % 4 == 0
      && (forall i :: 0 <= i < |e| ==> IsAlphabet(e[i]) || e[i] == '=')
      && (forall i, j :: 0 <= i < j < |e| && e[i] == '=' ==> e[j] == '=')
      && (forall i :: 0 <= i < |e| - 2 ==> e[i] != '=')
  {
    var text := codec.stringify(ToJson(v));
    BtoaShape(text);
    var e := Serialize(codec, v).value;
    var k := |EncodeGroups(Latin1Bytes(text))|;
    assert forall i :: 0 <= i < k ==> e[..k][i] == e[i];
  }
}
