# Veil wallet core, modelled in Dafny

Veil is a browser wallet for private transactions on Polygon through Railgun.
This project models the deterministic core of its TypeScript code and proves
properties of that model. The parts modelled are:

- **Token amounts** (`Tokens`): the Polygon token list, the case-insensitive
  lookups, exact `formatTokenAmount` (JavaScript BigInt `/` and `%`
  truncate toward zero, and the regular expression `/\.?0+$/` is cut at its
  leftmost match) and `parseTokenAmount` (split at `.`, pad or cut the
  fraction, then `BigInt`).
- **Key derivation** (`Derive`): the 22-byte deterministic salt filled in
  place, the four HKDF label pairs, the output lengths, the lowercase hex of
  the Railgun database key, and `zeroize`. PBKDF2 (section 5.2 of RFC 8018)
  and HKDF (RFC 5869) are abstract functions with length axioms.
- **Ciphertext framing** (`Encryption`): the 12-byte IV followed by the
  AES-GCM ciphertext (NIST SP 800-38D), written into a new array. The cipher
  is an abstract function with a round-trip axiom and a rejection outcome.
- **Record store** (`Storage`): one string-keyed IndexedDB store, modelled as
  a class over a `map` that holds encrypted blobs and public values under the
  same keys, with a ghost log of every write in order.
- **Wallet life cycle** (`Wallet`): `_buildWallet` and its five writes in
  order, `createWallet`, `importWallet` with its 12-word check,
  `checkWalletExists` and `loadWallet` with its error cases. The seed buffer
  is zeroed on every exit path. The Railgun SDK, BIP-39 and viem are oracles.
- **Engine bootstrap** (`Engine`, `EngineHook`): the module-level
  `engineInitialized` flag, the fixed sequence of SDK calls with its
  defaults, and the hook's `idle → initializing → ready | error` transitions
  through the app store.
- **Proof generation**:
  - `ProofWorker`: the worker's dispatch on the request type and the
    messages it posts (progress reports, then 100 and a result, or one
    error), including the BigInt replacer of `JSON.stringify`.
  - `ProofHook`: the page-side hook, a class over progress, result, error,
    isGenerating and the worker reference. Workers are numbered, and a
    terminated worker delivers nothing more.
- **Broadcast** (`BroadcastHook`): `useBroadcast` as a class whose calls
  settle later. The screens call `broadcast` as the program writes it,
  which keeps the previous transaction hash; the corrected variant of the
  finding below is stated beside it.
- **Screens** (`TxPhase`, `SendFlow`, `ShieldFlow`, `SwapFlow`): the phase
  machines of the send, shield and swap screens. One commit of a screen runs
  its three effects in declaration order, each against the values that
  render showed. `TxPhase.React` is that commit as a function, and each
  screen's `Commit` method is proved against it.
- **App store** (`AppStore`): the zustand store as a class over one flat
  state record, with its setters and `reset`.
- **View keys** (`ViewKeys`): `generateViewKey` with its conditional
  `txHash`, and `btoa(JSON.stringify(v))` with its inverse. Base64 follows
  section 4 of RFC 4648.

The supporting modules model the JavaScript built-ins the core relies on:
`Decimal` (digit strings and `BigInt`), `JsText` (split, pad, trim, ASCII
lower case), `Bytes` (lowercase hex), `Base64` (`btoa`/`atob` over
Latin-1), `Json` (the bigint replacer) and `Crypto` (the abstract
primitives).

The foreign code the core calls becomes values passed in as parameters:
function-typed fields of `Platform`, `WorkerPlatform`, `Kdf`, `Cipher`,
`JsonCodec` and `TextCodec`, each with a `Sound()` predicate carrying the
axioms. The calls are `crypto.subtle`, `JSON`, `TextEncoder`, the Railgun
SDK, `Mnemonic.fromEntropy`, `privateKeyToAccount` and the prepare
functions. Randomness (`crypto.getRandomValues`), the clock (`Date.now()`),
environment variables and the settlement of awaited network calls are
parameters too.

Two choices in modelling the React code:

- An event handler's state updates all apply even when the handler throws
  after making them. So when `parseTokenAmount` throws inside `handleSend`
  or `handleShield`, the screen is left in "proving" and no proof is
  requested.
- Every effect that fires changes the phase, which is one of its own
  dependencies (`TxPhase.ReactFiringMoves`). Running all three effects on
  every commit therefore acts as React's re-run-on-change does.

## Model

| member | source | states |
|---|---|---|
| Tokens.FindFirst | apps/web/lib/tokens.ts:54-56 | None exactly when no element satisfies the predicate; otherwise an element that satisfies it and that no earlier element does |
| Tokens.FindByAddress | apps/web/lib/tokens.ts:53-57 | the first token whose address equals the given one after ASCII lower-casing of both, and None exactly when no token matches |
| Tokens.FindBySymbol | apps/web/lib/tokens.ts:59-63 | the first token whose symbol equals the given one ignoring ASCII case, and None exactly when none matches |
| Tokens.FormatTokenAmountMeaning | apps/web/lib/tokens.ts:65-71 | for amount = whole·10^d + rest: the digits of whole, then, when non-empty, a point and at most min(d, 4) digits f without a trailing zero, where f·10^(d−\|f\|) ≤ rest < f·10^(d−\|f\|) + 10^(d−min(d,4)), so fractional digits are truncated and never rounded |
| Tokens.FormatTokenAmountClean | apps/web/lib/tokens.ts:70 | the text is never empty, never ends in a point, and never ends in a fractional zero |
| Tokens.FormatZero | apps/web/lib/tokens.ts:70 | an amount of 0 formats as "0" for every decimals |
| Tokens.StripShape | apps/web/lib/tokens.ts:70 | replacing /\.?0+$/ in "w.d" leaves w alone when d is all zeros, and otherwise w, a point and d without its trailing zeros |
| Tokens.TruncatingShift | apps/web/lib/tokens.ts:67-68 | BigInt division and remainder split whole·b + rest back into whole and rest |
| Tokens.ParseTokenAmountFraction | apps/web/lib/tokens.ts:73-77 | "w.f" with digit strings w and f parses to w·10^d plus the first d digits of f, right-padded with zeros to d digits; extra fraction digits are cut |
| Tokens.ParseTokenAmountWhole | apps/web/lib/tokens.ts:73-77 | a digit string without a point parses to w·10^d |
| Tokens.FormatThenParse | apps/web/lib/tokens.ts:65-77 | parsing the formatted amount gives amount − rest mod 10^(d−min(d,4)) |
| Tokens.FormatThenParseExact | apps/web/lib/tokens.ts:65-77 | for d ≤ 4, parsing the formatted amount gives the amount back |
| Tokens.Filter | apps/web/app/components/swap.tsx:165 | an element is kept exactly when it is in the list and satisfies the predicate |
| Tokens.FilterOne | apps/web/app/components/swap.tsx:165 | a one-element list is kept whole when its element satisfies the predicate and emptied otherwise |
| Tokens.FilterAppend | apps/web/app/components/swap.tsx:165 | filtering distributes over concatenation, so order and multiplicity of the kept elements are those of the list |
| Tokens.TokenWithAddressMeans | apps/web/app/components/send.tsx:134 | the exact-address find used by the token selects: a result is a listed token with that address, and None exactly when no listed token has it |
| Decimal.ParseIntToString | apps/web/app/components/send.tsx:42 | BigInt of the decimal text of any integer is that integer |
| Decimal.ParseDigits | apps/web/lib/tokens.ts:76 | BigInt of a string of decimal digits is its value |
| Decimal.NatToStringValue | apps/web/lib/tokens.ts:69 | the decimal text of n denotes n and has no leading zero |
| JsText.Utf16Length | apps/web/app/components/send.tsx:32 | the length of a string in UTF-16 code units is between its character count and twice that |
| JsText.Utf16LengthBmp | apps/web/app/components/send.tsx:32 | text whose every character is inside the Basic Multilingual Plane has as many code units as characters |
| JsText.SplitAtFirst | apps/web/lib/tokens.ts:74 | splitting at a separator yields the text before it, then the split of the rest |
| JsText.TrimShape | packages/core/src/wallet/create.ts:131 | trim returns a slice of the input that neither starts nor ends in white space, with only white space cut on either side |
| JsText.SplitWhiteSpaceWords | packages/core/src/wallet/create.ts:131 | splitting trimmed non-empty text at white-space runs gives non-empty words without white space |
| Bytes.HexEncodeAt | packages/core/src/keys/derive.ts:158-160 | each byte i becomes its own two lowercase hex digits at positions 2i and 2i+1 |
| Bytes.ByteHexDigits | packages/core/src/keys/derive.ts:159 | a byte's text is two lowercase digits: its high and its low nibble |
| Bytes.HexRoundTrip | packages/core/src/keys/derive.ts:158-160 | decoding the hex text gives the bytes back, so the encoding loses nothing |
| Base64.Btoa | packages/core/src/keys/viewkeys.ts:41 | btoa succeeds exactly on Latin-1 text and throws otherwise |
| Base64.BtoaShape | packages/core/src/keys/viewkeys.ts:41 | the output length is a multiple of four: alphabet characters, then at most two '=' |
| Base64.AtobBtoa | packages/core/src/keys/viewkeys.ts:41-48 | atob(btoa(s)) == s for every Latin-1 s |
| Json.BigIntAsDecimal | apps/web/app/workers/proof-worker.ts:106-108 | the replacer turns a bigint into a string that BigInt parses back to the same integer |
| Json.ReplaceEmbed | apps/web/app/workers/proof-worker.ts:106-108 | on a value without bigints the replacer changes nothing |
| Derive.SaltPrefix | packages/core/src/keys/derive.ts:13 | the salt prefix, the bytes of "veil-wallet-v1", is 14 bytes long |
| Derive.GenerateSalt | packages/core/src/keys/derive.ts:121-130 | returns a new array holding exactly the salt of the secret |
| Derive.SaltLayout | packages/core/src/keys/derive.ts:124-128 | the salt is 22 bytes: the 14-byte prefix, then the first min(8, len) secret bytes, then zeros |
| Derive.SaltDependsOnPrefix | packages/core/src/keys/derive.ts:121-130 | two secrets that agree on their first 8 bytes get the same salt |
| Derive.MasterSeedSalt | packages/core/src/keys/derive.ts:15-41 | PBKDF2 runs with 600000 iterations and 256 bits, on the caller's salt when one is given and on the generated salt otherwise |
| Derive.DerivedLengths | packages/core/src/keys/derive.ts:15-119 | master seed, encryption-key material and owner key are 32 bytes; mnemonic entropy is 16 |
| Derive.LabelsDistinct | packages/core/src/keys/derive.ts:43-152 | the four (salt, info) label pairs of the HKDF derivations are pairwise distinct |
| Derive.RailgunEncryptionKeyShape | packages/core/src/keys/derive.ts:136-161 | the Railgun key is 64 lowercase hex characters, and characters 2i and 2i+1 are byte i of the 32-byte HKDF output |
| Derive.Zeroize | packages/core/src/keys/derive.ts:167-169 | the buffer keeps its length and every byte becomes 0 |
| Encryption.Encrypt | packages/core/src/keys/encrypt.ts:8-26 | a new array holding the IV followed by the cipher's output |
| Encryption.SealedLayout | packages/core/src/keys/encrypt.ts:6-25 | the output is 12 + ciphertext bytes (12 + data + 16): the first 12 are the IV, and the rest is the ciphertext unchanged |
| Encryption.SplitSealed | packages/core/src/keys/encrypt.ts:32-34 | decrypt's split at 12 recovers exactly the IV and the ciphertext that encrypt framed |
| Encryption.DecryptEncrypt | packages/core/src/keys/encrypt.ts:8-43 | decrypting what encrypt produced under the same key gives the data back |
| Encryption.DecryptAccepted | packages/core/src/keys/encrypt.ts:28-43 | decrypt yields plaintext exactly when the cipher accepts the split parts; otherwise it yields none |
| Encryption.EncryptJson | packages/core/src/keys/encrypt.ts:48-55 | a new array holding the sealed UTF-8 of the JSON text |
| Encryption.DecryptJsonRoundTrip | packages/core/src/keys/encrypt.ts:48-67 | decryptJSON of encryptJSON(v) is v under the JSON and UTF-8 round-trip axioms |
| Encryption.DecryptJsonRejected | packages/core/src/keys/encrypt.ts:60-67 | decryptJSON fails with a rejection exactly when decrypt rejects |
| Storage.RecordStore.constructor | packages/core/src/keys/storage.ts:12 | the store starts empty, with no writes logged |
| Storage.RecordStore.SetEncrypted | packages/core/src/keys/storage.ts:17-24 | only the key changes; it now holds the framed ciphertext of the data, and that write is appended to the store's write log |
| Storage.RecordStore.GetEncrypted | packages/core/src/keys/storage.ts:29-36 | null for an absent key, otherwise the decryption of the stored blob |
| Storage.RecordStore.SetEncryptedJson | packages/core/src/keys/storage.ts:41-48 | only the key changes; it now holds the sealed JSON of the value, and that write is appended to the write log |
| Storage.RecordStore.GetEncryptedJson | packages/core/src/keys/storage.ts:53-60 | null for an absent key, otherwise the decrypted JSON of the stored blob |
| Storage.RecordStore.SetPublic | packages/core/src/keys/storage.ts:65-67 | only the key changes; it now holds the plain value, and that write is appended to the write log |
| Storage.RecordStore.GetPublic | packages/core/src/keys/storage.ts:72-75 | the stored record, or null when absent or when the stored value is null |
| Storage.RecordStore.Remove | packages/core/src/keys/storage.ts:80-82 | the key is deleted and nothing else changes; no write is logged |
| Storage.RecordStore.ListKeys | packages/core/src/keys/storage.ts:87-90 | exactly the stored keys, each once |
| Storage.RecordStore.ClearAll | packages/core/src/keys/storage.ts:95-100 | after deleting each listed key in turn, the store is empty; no write is logged |
| Storage.SetThenGetEncrypted | packages/core/src/keys/storage.ts:17-36 | getEncrypted after setEncrypted under the same key and encryption key returns the data |
| Storage.SetThenGetEncryptedJson | packages/core/src/keys/storage.ts:41-60 | getEncryptedJSON after setEncryptedJSON returns the value |
| Storage.AbsentReadsNull | packages/core/src/keys/storage.ts:29-75 | all three reads of an absent key return null |
| Storage.SetThenGetPublic | packages/core/src/keys/storage.ts:65-75 | getPublic after setPublic returns the value, or null when the value was null |
| Storage.WriteIsolated | packages/core/src/keys/storage.ts:17-67 | a write under one key leaves every read of every other key unchanged |
| Storage.PublicOverwritesEncrypted | packages/core/src/keys/storage.ts:12-36 | after a public write, an encrypted read of that key no longer yields data |
| Storage.EncryptedOverwritesPublic | packages/core/src/keys/storage.ts:12-75 | after an encrypted write, getPublic of that key returns the blob |
| Storage.RemoveReadsNull | packages/core/src/keys/storage.ts:72-82 | after remove the key reads null, and every other key reads as before |
| Wallet.OwnerKeyHexShape | packages/core/src/wallet/create.ts:61 | ownerKeyHex is "0x" then 64 lowercase hex digits, which decode to the owner key bytes |
| Wallet.BuildWallet | packages/core/src/wallet/create.ts:43-93 | when a foreign call throws, nothing is written; otherwise the store's write log grows by exactly the five records in order (secrets, state, id, Railgun key, exists flag last), the store is what those writes leave, and the returned addresses, id and key are the derived ones |
| Wallet.WalletWritesKeys | packages/core/src/wallet/create.ts:74-90 | the writes go to wallet-secrets, wallet-state, wallet-id, railgun-enc-key, then wallet-exists = true |
| Wallet.ExistsWrittenLast | packages/core/src/wallet/create.ts:74-90 | any proper prefix of the writes leaves checkWalletExists as it was; all five make it true |
| Wallet.CreateWallet | packages/core/src/wallet/create.ts:102-117 | builds from the derived seed and the generated mnemonic, with the five writes logged in order; the seed buffer has the master seed's length and ends zeroed |
| Wallet.ImportWallet | packages/core/src/wallet/create.ts:126-143 | without exactly 12 words: the error, no seed derived, store untouched and nothing logged; otherwise built from the trimmed mnemonic with the five writes logged in order, and the seed buffer, of the master seed's length, ends zeroed |
| Wallet.AcceptedWords | packages/core/src/wallet/create.ts:131-132 | each of the 12 accepted words is non-empty and has no white space |
| Wallet.BlankRefused | packages/core/src/wallet/create.ts:131-134 | a blank mnemonic splits into one empty word, so it is refused |
| Wallet.CheckWalletExists | packages/core/src/wallet/create.ts:148-151 | true exactly when the stored wallet-exists value is the boolean true |
| Wallet.LoadWallet | packages/core/src/wallet/create.ts:157-196 | the outcome of reading the store under the derived keys; the seed buffer has the master seed's length and ends zeroed |
| Wallet.LoadWithoutSecrets | packages/core/src/wallet/create.ts:166-169 | without wallet-secrets, loadWallet fails with "No wallet found" |
| Wallet.LoadRejectsForeignRecord | packages/core/src/wallet/create.ts:166 | secrets sealed under another key make loadWallet fail in decryption |
| Wallet.LoadWithoutId | packages/core/src/wallet/create.ts:166-175 | readable secrets without wallet-id fail with "No wallet found" or "Wallet ID not found" |
| Wallet.LoadReadable | packages/core/src/wallet/create.ts:177-192 | with secrets and id present: both addresses from the secrets, the id from the SDK call, the derived key, chain "polygon"; or the SDK's error |
| Wallet.BuiltReads | packages/core/src/wallet/create.ts:68-90 | after the five writes, the secrets decrypt to what was written, the id reads back, and the wallet exists |
| Wallet.BuildThenLoad | packages/core/src/wallet/create.ts:43-196 | after building a wallet, loading with the same seed returns what building returned, on chain "polygon" |
| Wallet.SecretsFields | packages/core/src/wallet/create.ts:68-73 | the secrets object is truthy and carries the mnemonic and both addresses |
| Engine.InitPlanShape | packages/core/src/railgun/engine.ts:74-124 | start the engine, then Polygon 137, then Arbitrum 42161, then Ethereum 1 exactly when its URL is given; debug, POI list and a 300000 ms polling default shared by every provider |
| Engine.Accepted | packages/core/src/railgun/engine.ts:74-124 | the awaited calls that succeed before the first one throws |
| Engine.InitOutcome | packages/core/src/railgun/engine.ts:64-127 | init completes exactly when no error is raised; then every planned call ran and succeeded; otherwise the calls are a prefix of the plan, ending at the one that threw |
| Engine.RailgunEngine.constructor | packages/core/src/railgun/engine.ts:24 | uninitialised, no calls made |
| Engine.RailgunEngine.InitEngine | packages/core/src/railgun/engine.ts:64-127 | makes no call when already initialised; otherwise the planned calls up to the first failure; the flag is set only when all succeed |
| Engine.RailgunEngine.IsEngineInitialized | packages/core/src/railgun/engine.ts:129-131 | returns the flag |
| EngineHook.ConfigDefaults | apps/web/app/hooks/use-railgun-engine.ts:31-38 | the hook's config starts the SDK with debug exactly in development and the default POI list, uses the default polling interval, and loads Ethereum exactly when its URL is set |
| EngineHook.EngineHookState.constructor | apps/web/app/hooks/use-railgun-engine.ts:15 | not attempted |
| EngineHook.EngineHookState.Effect | apps/web/app/hooks/use-railgun-engine.ts:17-39 | no effect once attempted or when not idle; a missing RPC URL records the error; otherwise status initializing and init launched with the config |
| EngineHook.EngineHookState.Settle | apps/web/app/hooks/use-railgun-engine.ts:40-44 | after the engine's init, the status becomes ready, or error with the message |
| EngineHook.Boot | apps/web/app/hooks/use-railgun-engine.ts:17-45 | from idle, one effect run and its settlement leave the status ready or error, never idle; no engine call without both URLs; an error always has its message |
| AppStore.BalanceOf | apps/web/app/components/send.tsx:28-30 | None exactly when no row's address matches ignoring ASCII case; otherwise the balance of a matching row |
| AppStore.ResetIsInitial | apps/web/app/store.ts:95-111 | reset gives the initial state, with isInitializing, isScanning and chain kept |
| AppStore.ResetIdempotent | apps/web/app/store.ts:95-111 | resetting twice is resetting once, and reset of the initial state is the initial state |
| AppStore.ResetForgetsAuthentication | apps/web/app/store.ts:82-111 | reset after setAuthenticated is the same as reset alone |
| AppStore.AuthenticatedShape | apps/web/app/store.ts:82-83 | setAuthenticated sets the flag, the four wallet fields and the dashboard screen, and changes nothing else |
| AppStore.ResetErrorRecorded | apps/web/app/store.ts:63-111 | the initial and the reset states are unauthenticated and idle, with no error status missing its message |
| AppStore.WalletStore.constructor | apps/web/app/store.ts:63-80 | the initial state |
| AppStore.WalletStore.SetAuthenticated | apps/web/app/store.ts:82-83 | the state after setAuthenticated |
| AppStore.WalletStore.SetScreen | apps/web/app/store.ts:84 | only screen changes |
| AppStore.WalletStore.SetPublicBalances | apps/web/app/store.ts:85 | only publicBalances changes |
| AppStore.WalletStore.SetPrivateBalances | apps/web/app/store.ts:86 | only privateBalances changes |
| AppStore.WalletStore.SetScanning | apps/web/app/store.ts:87 | only isScanning changes |
| AppStore.WalletStore.SetProofProgress | apps/web/app/store.ts:88 | only proofProgress changes |
| AppStore.WalletStore.SetInitializing | apps/web/app/store.ts:89 | only isInitializing changes |
| AppStore.WalletStore.SetEngineStatus | apps/web/app/store.ts:90 | only engineStatus changes |
| AppStore.WalletStore.SetEngineError | apps/web/app/store.ts:91 | exactly engineStatus becomes error and engineError the message |
| AppStore.WalletStore.SetPendingAuthSecret | apps/web/app/store.ts:92 | only pendingAuthSecret changes |
| AppStore.WalletStore.SetPendingMnemonic | apps/web/app/store.ts:93 | only pendingMnemonic changes |
| AppStore.WalletStore.SetCreationError | apps/web/app/store.ts:94 | only creationError changes |
| AppStore.WalletStore.ResetAll | apps/web/app/store.ts:95-111 | the state after reset |
| ViewKeys.GenerateViewKey | packages/core/src/keys/viewkeys.ts:15-35 | type, wallet address and chain id are copied and the key is the shareable viewing key; txHash is present exactly for a single-type key given a non-empty hash, and is then that hash |
| ViewKeys.TypeOfName | packages/core/src/keys/viewkeys.ts:47-48 | the type's JSON name reads back as the type |
| ViewKeys.FromToJson | packages/core/src/keys/viewkeys.ts:40-49 | the JSON object of a view key reads back as the same view key |
| ViewKeys.SerializeDefined | packages/core/src/keys/viewkeys.ts:41 | serialisation succeeds exactly when the JSON text is Latin-1 |
| ViewKeys.DeserializeSerialize | packages/core/src/keys/viewkeys.ts:40-49 | when serialisation succeeds, deserializing its text gives the JSON object back, and that object reads back as v |
| ViewKeys.SerializedIsBase64 | packages/core/src/keys/viewkeys.ts:41 | the serialised text is standard base64: a multiple of four characters from the alphabet, with '=' only at the end |
| ProofWorker.MathRoundNearest | apps/web/app/workers/proof-worker.ts:31 | Math.round is within one half of its argument and keeps integers |
| ProofWorker.EmittedShape | apps/web/app/workers/proof-worker.ts:35-118 | progress messages, then one final message: the result exactly when preparation succeeds, the error otherwise |
| ProofWorker.EmittedOnSuccess | apps/web/app/workers/proof-worker.ts:103-110 | on success the last two messages are progress 100 and the result, the result appears once, and no error appears |
| ProofWorker.EmittedOnFailure | apps/web/app/workers/proof-worker.ts:111-117 | on failure one error message comes last and no result appears; when BigInt threw, it is the only message |
| ProofWorker.EmittedProgress | apps/web/app/workers/proof-worker.ts:30-33 | each progress report reaches the page in order, rounded |
| ProofWorker.DispatchSelects | apps/web/app/workers/proof-worker.ts:41-101 | the request type selects the prepare call of that type; only a non-swap request whose amount BigInt rejects fails, and otherwise the amount is BigInt of the parameter |
| ProofWorker.SwapFeeDefault | apps/web/app/workers/proof-worker.ts:96 | feeBasisPoints is 85 when absent or 0, and a truthy value passes through |
| ProofWorker.AmountText | apps/web/app/workers/proof-worker.ts:42-78 | an amount sent as the decimal text of n reaches the prepare call as exactly n |
| ProofWorker.ResultBigIntAsText | apps/web/app/workers/proof-worker.ts:106-108 | a bigint field of the prepared result is serialised as text that parses back to the same integer |
| ProofWorker.WorkerScope.constructor | apps/web/app/workers/proof-worker.ts:35 | nothing posted yet |
| ProofWorker.WorkerScope.OnProgress | apps/web/app/workers/proof-worker.ts:30-33 | posts one progress message with the rounded value |
| ProofWorker.WorkerScope.HandleRequest | apps/web/app/workers/proof-worker.ts:35-118 | posts exactly the message sequence of the request |
| ProofHook.ProofWorkerHook.constructor | apps/web/app/hooks/use-proof-worker.ts:17-21 | no worker, no outputs, not generating |
| ProofHook.ProofWorkerHook.GenerateProof | apps/web/app/hooks/use-proof-worker.ts:29-70 | the old worker terminated, progress 0, result and error cleared, generating, and a new worker referenced and posted the request; no older worker stays live |
| ProofHook.ProofWorkerHook.OnMessage | apps/web/app/hooks/use-proof-worker.ts:43-61 | progress sets only progress; a result sets result and progress 100 and stops; an error sets error and stops; both terminate the worker; a dead worker's message changes nothing |
| ProofHook.ProofWorkerHook.OnError | apps/web/app/hooks/use-proof-worker.ts:63-67 | the event's message, or "Worker error" when it is empty; generation stops and the worker is terminated |
| ProofHook.ProofWorkerHook.Cancel | apps/web/app/hooks/use-proof-worker.ts:72-77 | the referenced worker terminated and dropped, not generating, progress null, result and error kept; no worker live |
| ProofHook.ProofWorkerHook.Unmount | apps/web/app/hooks/use-proof-worker.ts:23-27 | only the referenced worker is terminated; afterwards no worker is live |
| TxPhase.ReactBroadcastsOnce | apps/web/app/components/send.tsx:47-53 | a commit broadcasts exactly when proving with a result and not yet started; then it broadcasts that result and sets the flag, so a second commit broadcasts nothing |
| TxPhase.ReactSuccess | apps/web/app/components/send.tsx:62-68 | success is entered only from submitting with a hash and no broadcast error, and always then |
| TxPhase.ReactError | apps/web/app/components/send.tsx:55-68 | error is entered only on a finished proof's error or a broadcast error, with that message as txError |
| TxPhase.ReactAtRest | apps/web/app/components/send.tsx:47-68 | in form, quoting, success and error a commit changes nothing and broadcasts nothing |
| TxPhase.ReactFiringMoves | apps/web/app/components/send.tsx:47-68 | an effect that fires changes the phase |
| TxPhase.ReactFromProving | apps/web/app/components/send.tsx:47-60 | proving moves only to submitting or error, and stays exactly when neither guard holds |
| BroadcastHook.Broadcaster.constructor | apps/web/app/hooks/use-broadcast.ts:13-15 | no hash, not broadcasting, no error, nothing sent |
| BroadcastHook.Broadcaster.BroadcastAsWritten | apps/web/app/hooks/use-broadcast.ts:17-23 | busy, error cleared, the transaction sent, the hash left as it was |
| BroadcastHook.Broadcaster.Broadcast | apps/web/app/hooks/use-broadcast.ts:17-23 | as written, but with the hash cleared too, so neither hash nor error is shown until the call settles |
| BroadcastHook.Broadcaster.Settle | apps/web/app/hooks/use-broadcast.ts:24-44 | the hash, or the error's message ("Broadcast failed" for a non-Error), then not busy; with nothing awaiting, no change |
| BroadcastHook.StaleHashAsWritten | apps/web/app/hooks/use-broadcast.ts:17-45 | as written, a second send shows success with the first send's hash while its own call still awaits |
| BroadcastHook.StaleHashCorrected | apps/web/app/hooks/use-broadcast.ts:17-45 | with the hash cleared, the same steps stay in submitting with no hash shown |
| BroadcastHook.NoSuccessBeforeSettle | apps/web/app/components/send.tsx:62-68 | right after the corrected broadcast, a commit in submitting neither succeeds nor broadcasts |
| SendFlow.SecondSendShowsStaleHash | apps/web/app/components/send.tsx:47-94 | on the send screen itself: after a first send succeeded with hash H, Back and a second send whose proof arrives end, two commits later, in success showing H while the second broadcast is still awaiting |
| SendFlow.ValidRecipientMeans | apps/web/app/components/send.tsx:32 | valid exactly when it starts "0zk" and its length in UTF-16 code units is at least 11 |
| SendFlow.ValidBmpRecipient | apps/web/app/components/send.tsx:32 | for text inside the Basic Multilingual Plane, valid exactly when at least 11 characters long and starting "0zk" |
| SendFlow.AstralRecipientValid | apps/web/app/components/send.tsx:32 | "0zk" followed by four emoji is valid: seven characters, yet eleven code units |
| SendFlow.SendReachesPrepare | apps/web/app/components/send.tsx:38-44 | the worker turns the send request into prepareTransfer on polygon with the wallet, token, recipient and exactly the parsed amount |
| SendFlow.SendScreen.constructor | apps/web/app/components/send.tsx:17-22 | the form, USDC selected, nothing typed |
| SendFlow.SendScreen.HandleSend | apps/web/app/components/send.tsx:34-45 | nothing without an amount, a valid recipient and a wallet id; otherwise proving, the flag reset, and a transfer proof requested unless parsing the amount throws |
| SendFlow.SendScreen.Commit | apps/web/app/components/send.tsx:47-68 | phase, flag and txError as the commit function gives them, with a private broadcast of the result exactly when it says so; the broadcast keeps the previous hash, as the program's hook does |
| SendFlow.SendScreen.Back | apps/web/app/components/send.tsx:75 | the proof cancelled and the form shown, inputs kept |
| SendFlow.SendScreen.Retry | apps/web/app/components/send.tsx:94 | txError cleared and the form shown, inputs kept |
| SendFlow.SendScreen.Done | apps/web/app/components/send.tsx:93 | the store's screen becomes the dashboard and nothing else changes |
| SendFlow.SendScreen.SetRecipient | apps/web/app/components/send.tsx:121 | only the recipient changes |
| SendFlow.SendScreen.SetAmount | apps/web/app/components/send.tsx:152 | only the amount changes |
| SendFlow.SendScreen.SelectToken | apps/web/app/components/send.tsx:133-136 | the listed token with that address is selected; an unlisted address changes nothing |
| SendFlow.SendScreen.UseMax | apps/web/app/components/send.tsx:156-158 | the amount becomes the selected token's private balance |
| ShieldFlow.ShieldReachesPrepare | apps/web/app/components/shield.tsx:35-40 | the worker turns the shield request into prepareShield on polygon, to the user's own 0zk address, with exactly the parsed amount |
| ShieldFlow.ShieldScreen.constructor | apps/web/app/components/shield.tsx:17-21 | the form, USDC selected, nothing typed |
| ShieldFlow.ShieldScreen.HandleShield | apps/web/app/components/shield.tsx:31-41 | nothing without an amount and a railgun address; otherwise proving, the flag reset, and a shield proof to that address requested unless parsing throws |
| ShieldFlow.ShieldScreen.Commit | apps/web/app/components/shield.tsx:44-69 | as the commit function gives it, with a shield broadcast of the result that keeps the previous hash, as the program's hook does |
| ShieldFlow.ShieldScreen.Back | apps/web/app/components/shield.tsx:76 | the proof cancelled and the form shown, inputs kept |
| ShieldFlow.ShieldScreen.Retry | apps/web/app/components/shield.tsx:95 | txError cleared and the form shown |
| ShieldFlow.ShieldScreen.Done | apps/web/app/components/shield.tsx:94 | the store's screen becomes the dashboard |
| ShieldFlow.ShieldScreen.SetAmount | apps/web/app/components/shield.tsx:139 | only the amount changes |
| ShieldFlow.ShieldScreen.SelectToken | apps/web/app/components/shield.tsx:120-123 | the listed token with that address is selected; an unlisted address changes nothing |
| ShieldFlow.ShieldScreen.UseMax | apps/web/app/components/shield.tsx:143-145 | the amount becomes the selected token's public balance |
| SwapFlow.SellOptionsExact | apps/web/app/components/swap.tsx:165 | the sell options are exactly the non-native listed tokens |
| SwapFlow.BuyOptionsExact | apps/web/app/components/swap.tsx:200 | the buy options are exactly the non-native listed tokens at another address than the sell token, so never the sell token |
| SwapFlow.SwapReachesPrepare | apps/web/app/components/swap.tsx:76-83 | the worker turns the swap request into prepareSwap with the quote (or null), the user's own 0zk address, the zero fee recipient and 85 basis points |
| SwapFlow.SwapScreen.constructor | apps/web/app/components/swap.tsx:18-25 | the form, selling USDC for WETH, nothing typed or quoted |
| SwapFlow.SwapScreen.HandleGetQuote | apps/web/app/components/swap.tsx:35-54 | nothing without an amount; an amount BigInt rejects gives error with its message; otherwise quoting, with the quote requested for the parsed amount |
| SwapFlow.SwapScreen.QuoteSettled | apps/web/app/components/swap.tsx:43-69 | a quote sets the estimate (the buy amount in the buy token's decimals) and keeps the quote; the mock sets the estimate and no quote; both return to the form; a failure gives error with its message or "Quote failed" |
| SwapFlow.SwapScreen.HandleSwap | apps/web/app/components/swap.tsx:72-84 | nothing without an amount, an estimate and a wallet id; otherwise proving, the flag reset, and a swap proof requested |
| SwapFlow.SwapScreen.Commit | apps/web/app/components/swap.tsx:86-107 | as the commit function gives it, with a private broadcast of the result that keeps the previous hash, as the program's hook does |
| SwapFlow.SwapScreen.Back | apps/web/app/components/swap.tsx:114 | the proof cancelled and the form shown, inputs kept |
| SwapFlow.SwapScreen.Retry | apps/web/app/components/swap.tsx:133 | txError cleared and the form shown |
| SwapFlow.SwapScreen.Done | apps/web/app/components/swap.tsx:132 | the store's screen becomes the dashboard |
| SwapFlow.SwapScreen.SelectSellToken | apps/web/app/components/swap.tsx:159-162 | a listed token becomes the sell token and estimate and quote are cleared; an unlisted address changes nothing |
| SwapFlow.SwapScreen.SelectBuyToken | apps/web/app/components/swap.tsx:194-197 | a listed token becomes the buy token and estimate and quote are cleared; an unlisted address changes nothing |
| SwapFlow.SwapScreen.SetSellAmount | apps/web/app/components/swap.tsx:173 | the amount changes and estimate and quote are cleared |
| SwapFlow.WethListed | apps/web/app/components/swap.tsx:19 | WETH's address selects WETH in the token list |
| SwapFlow.SellTokenCanEqualBuyToken | apps/web/app/components/swap.tsx:159-200 | after the sell select is given the buy token's address, sell and buy are the same token, and the buy options do not offer it |

## Left out

- Web Crypto, JSON, UTF-8, BIP-39, secp256k1 and the Railgun SDK are foreign code. They are oracles with length and round-trip axioms, and nothing about their insides is modelled.
- The network calls (`getSwapQuote`, `broadcastShield`, `broadcastPrivate`, the prepare functions) are not modelled. Their outcomes, and the progress values they report, are parameters.
- The engine's `createDatabase` and `createArtifactStore`, the dynamic `import()` calls and their failures are left out. The model assumes each import succeeds.
- The single-threaded event loop is modelled as discrete events. A terminated worker is assumed to deliver nothing more, which is the platform's promise. Effects run once per commit against the rendered values; nothing of React's scheduling beyond that is modelled.
- Decimal.ParseBigInt covers only the forms the app produces: an optional sign and digits, with the empty text read as 0. BigInt's white-space trimming and its `0x`, `0o` and `0b` forms are not modelled. BigInt of an object or an array is modelled as throwing.
- `BigInt` error messages are a parameter (`bigIntErrorMessage`, the `bigIntError` argument of `HandleGetQuote`).
- JSON numbers are integers in `Json` and in the worker's `JsValue`, and `undefined` is written as null. Numbers with a fraction are not modelled.
- `Math.round` is modelled on real numbers; the rounding of floating-point values is not.
- Floating point is left out in three places, with the result taken as a parameter: the swap screen's mock rate, which is the `Mocked` estimate text; `parseFloat` in the disabled conditions of the buttons; and the progress display.
- The regular-expression filter on the amount inputs is left out. `SetAmount` and `SetSellAmount` take the text after that filter.
- The buttons' `disabled` conditions are left out, because they use `parseFloat`. `HandleSend`, `HandleShield`, `HandleGetQuote` and `HandleSwap` model the guards inside the handlers, which also cover a disabled button.
- JSX rendering, the dashboard and the other screens are not modelled; `tx-progress.tsx` only decides which buttons appear in which phase.
- Unknown proof types are out of scope. The request type is one of the four declared ones, so the switch in the worker always matches.
- `JSON.stringify` throwing, or returning undefined, is not modelled. It is an oracle returning text.
- `Date.now()` and the IVs from `crypto.getRandomValues` are parameters of `BuildWallet`, `CreateWallet` and `ImportWallet`.
- The `{ Polygon: 0 }` creation blocks passed to `createRailgunWallet` are part of the oracle.
- Storage.RecordStore.ListKeys: states the key set and no repeats, not the order IndexedDB returns.
- Storage.RecordStore.GetEncrypted: JavaScript's `if (!encrypted)` test on a stored public value is modelled by record kind: a public record under the key reads as null or fails to decrypt.
- Wallet.BuildThenLoad: requires a non-empty wallet id from the SDK, because `loadWallet` treats an empty stored id as missing.
- Derive.SaltPrefix: the bytes are the ASCII of "veil-wallet-v1" written out, not the output of a `TextEncoder`.
- AppStore.BalanceOf: states that a matching row's balance is returned, not that it is the first matching row.
- Tokens.FindByAddress, Tokens.FindBySymbol, AppStore.BalanceOf: lower-casing (tokens.ts:55 and :61; send.tsx:29, shield.tsx:28, swap.tsx:32) is ASCII only; the Unicode case mapping of `toLowerCase` (for example KELVIN SIGN to "k") is not modelled, since token addresses and symbols are ASCII.
- BroadcastHook.Broadcaster.Broadcast: overlapping broadcasts are not ordered. A settlement of an older call can still complete a newer submit.
- Concurrency inside `useBroadcast` beyond one awaiting call per screen, for example a screen unmounting while a call awaits, is not modelled.

## Findings

| source | as written | input that shows it | evidently intended | confidence | as-written member | corrected member |
|---|---|---|---|---|---|---|
| apps/web/app/hooks/use-broadcast.ts:17-45 | `broadcast` clears `broadcastError` but keeps the previous `txHash`, so a screen that returns to submitting after a success sees the old hash at once and shows success | send succeeds with hash H; Back; send again; the new proof result is broadcast, and the next commit shows success with H while the second call is still awaiting | `broadcast` also clears `txHash` before the call, so a shown hash belongs to a settled call | not executed | BroadcastHook.StaleHashAsWritten | BroadcastHook.StaleHashCorrected |
