# chainloader: transaction-to-file resolution, modelled in Dafny

`chainloader` loads files that ledger transactions point to. A *public* transaction carries
the content key of a file in the keeper (a content-addressed store). A *permission*
transaction carries that key encrypted. To read it, the loader:

1. looks up the sender and receiver identities by address;
2. derives an ECDH shared key;
3. decrypts the payload to find where the permission is stored;
4. fetches and recovers the permission;
5. fetches the file the permission names and, if the permission says so, decrypts it.

The loader writes its progress onto the parsed transaction record, and that record also
serves as a cache when the same record is loaded again. A list of transactions settles
item by item, in input order.

The model covers `index.js`:

- `load`, `loadMany` and `loadOne` (with the inner `processSharedFile`, `loadPermission`
  and `decrypt`);
- `fetch`, `_parseTx`, `_processTxInfo` (with `processPermission`), `_getSharedKey` and
  `_lookupParties`;
- the helpers `errorWithProgress` and `isOldFormatTxData`.

The error kinds come from `errors.js`.

Layout:

- `wrappers.dfy`: `Option` and `Result`.
- `encoding.dfy`: bytes and `Buffer.toString('hex')`.
- `records.dfy`: the collaborators' data and the `ParsedTx` record class.
- `errors.dfy`: error kinds and the `progress` annotation.
- `parties.dfy`: party matching and shared-key selection, as specification functions.
- `pipeline.dfy`: the per-transaction state machine, as specification functions over the
  record's state.
- `properties.dfy`: lemmas about that state machine.
- `batch.dfy`: the list case, including the defect described under Findings.
- `loader.dfy`: the `Loader` class. Its methods update `ParsedTx` records in place and are
  proved against the specification functions.

Collaborators are values in a `Config`:

- The identity lookup is an optional function. An answer of `None` stands for a rejected
  or empty lookup.
- The keeper is a map. A missing key is a failed `getOne`.
- `TxInfo.validate`, `TxInfo.parse`, `utils.decryptAsync`, `utils.sharedEncryptionKey`
  and `Permission.recover` are opaque function values. `None` stands for their failure.

Promises become sequential steps that settle as a `Result`.

## Model

The specification functions of `Parties` and `Pipeline` are the reference definitions of
the source functions they are named after. For example, `Parties.Parties` is `_lookupParties`;
`Pipeline.ProcessTxInfo` is `_processTxInfo`; `Pipeline.LoadRecord` is `loadOne` after
parsing; `Pipeline.Fetch` is `fetch`, index.js:158-166; `Pipeline.Parsed` and
`Pipeline.NoDataError` are the two first steps of `_parseTx`, index.js:263-273;
`Pipeline.IsOldFormatTxData` is `isOldFormatTxData`, index.js:350-353. The rows
for the `Loader` methods prove each method equal to its function, and the lemma rows state
what the functions promise.

| member | source | states |
|---|---|---|
| `Encoding.Hex` | index.js:196 | the hex key of a payload has two characters per byte |
| `Encoding.HexInjective` | index.js:238 | distinct decrypted payloads give distinct hex keys, so the key names its bytes |
| `Errors.WithProgress` | index.js:344-348 | `progress` is set only when absent: the first annotation wins; the kind and diagnostic are untouched |
| `Parties.FirstResolvedAt` | index.js:318-324 | the sender scan stops at the first resolved entry; every entry before it is unresolved |
| `Parties.FirstCounterpartAt` | index.js:326-332 | the receiver scan stops at the first resolved entry whose public value differs from the sender's; none before it qualifies |
| `Parties.PartySelection` | index.js:291-335 | with a lookup: `null` exactly when no sender address resolves; otherwise `from` is the first resolved sender; `to` is the first resolved receiver with a different public value, or absent when none qualifies |
| `Parties.NoLookupGivesEmptyMatch` | index.js:293-294 | without a lookup function the call gives the empty match `{}`, not `null` |
| `Parties.ToNeedsFrom` | index.js:326-334 | `to` is never set without `from` |
| `Parties.SharedKey` | index.js:244-257 | no key without both parties; sender's private half with receiver's public value; when the sender has no private half, receiver's private half with sender's public value; a key only when both chosen halves are truthy |
| `Parties.SharedKeySymmetric` | index.js:244-257 | when exactly one party holds a private half, the key is the same whichever party is the sender, and exists exactly when the other party has a public value |
| `Parties.SharedKeyExists` | index.js:249-256 | a shared key exists exactly when one of the two orderings, sender's first, supplies both halves |
| `PipelineProperties.PermissionShortCircuits` | index.js:170 | a record that already has a permission is returned unchanged, whatever the lookup would answer |
| `PipelineProperties.EarlyRejections` | index.js:172-186 | without an encrypted permission: invalid gives `NotEnoughInfo(txId)`; valid but a 20-byte permission payload gives `Decrypt(sharedKey)`; the record is unchanged and the outcome does not depend on the lookup |
| `Pipeline.WithParties` | index.js:188-193 | a non-null match sets `from` and `to` to the match's (absent where the match lacks them); a `null` match changes nothing; no other field changes |
| `PipelineProperties.PublicKeyIsHexOfPayload` | index.js:195-196 | a public record past the checks gets `key` = hex of its payload, with the looked-up parties |
| `PipelineProperties.PermissionErrorOrder` | index.js:205-241 | errors in order: `ParticipantsNotFound`, then `ECDH`, then `Decrypt` naming the current key, each with the whole new record state; on success `key` and `permissionKey` are both the hex of the decrypted payload; when `encryptedPermission` is present nothing is decrypted: the outcome is the same whatever the decryption would give, and `key`/`permissionKey` are untouched |
| `PipelineProperties.PermissionKeyNamesPayload` | index.js:237-239 | two permission records that decrypt their payloads and end with the same `permissionKey` decrypted the same bytes, because the hex key determines its bytes |
| `PipelineProperties.SelfTransactionIsParticipantsNotFound` | index.js:326-332 | when every resolved address has one public value, or none resolves, a fresh permission record fails with `ParticipantsNotFound` |
| `PipelineProperties.PermissionFileMissing` | index.js:77-95 | a permission record with no cached content goes to the keeper under the key the payload steps left; a miss fails with `FileNotFound` naming that key, carrying the record, with the record as those steps left it |
| `PipelineProperties.PublicFileMissing` | index.js:77-95 | a public record with no cached `data` goes to the keeper under its key, the hex of its payload when it carries no permission; a miss fails with `FileNotFound` naming that key, carrying the record |
| `PipelineProperties.CachedPublicDataSkipsFetch` | index.js:77-88 | a cached public `data` is the result and the keeper is not consulted |
| `PipelineProperties.CachedEncryptedDataSkipsFetch` | index.js:77-81 | a permission record with cached `encryptedData` uses it as the permission file and never goes to the keeper, whatever earlier load (successful or not) left it there |
| `PipelineProperties.CachedPermissionSkipsRecover` | index.js:114-115 | an existing permission is returned without calling `Permission.recover` |
| `PipelineProperties.RecoverFailureIsInvalidPermission` | index.js:117-123 | a recovery failure becomes `InvalidPermission` carrying the record's key |
| `PipelineProperties.PermissionSuccess` | index.js:97-112 | after success: `key` is the permission's file key and the content is cached as `encryptedData`; the result is the raw content when there is no decryption key, else the record with the decrypted `data` |
| `PipelineProperties.ContentDecryptFailure` | index.js:126-140 | a content decryption failure is `Decrypt` naming the file key; the record then holds the permission, the file key and the fetched (or already cached) content bytes, and nothing else changes |
| `PipelineProperties.FailuresCarryTheRecord` | index.js:93-95 | every rejection after parsing carries the record as `progress` |
| `PipelineProperties.PermissionEndToEnd` | index.js:71-123 | a fresh permission record whose steps all succeed resolves with the keeper's bytes under the permission's file key; a missing file key gives `FileNotFound` naming it, with progress |
| `PipelineProperties.PublicEndToEnd` | index.js:74-88 | a fresh valid public record resolves to itself, with `key` = hex of the payload and `data` = the keeper's bytes under it |
| `PipelineProperties.RevisitPermission` | index.js:77-81 | reloading a successfully loaded permission record repeats only the final decryption and gives the same result whatever the lookup, keeper and recovery now say; the one change is that `encryptedPermission` is overwritten with the cached content |
| `PipelineProperties.RevisitPublic` | index.js:77-87 | reloading a loaded public record leaves it as it is, without consulting the keeper |
| `Batch.Settle` | index.js:67-69 | the list case gives exactly one outcome per input |
| `Batch.SettleInOrder` | index.js:67-69 | the outcome at each position is that input's own outcome |
| `Batch.SettleIsolates` | index.js:67-69 | replacing one input, failing or not, changes no other input's outcome |
| `Batch.LoadManyAsWritten` | index.js:269-272 | as written, the list call settles, with the per-item outcomes of `Batch.Settle`, only when every input parses; otherwise it throws |
| `Batch.UnparsableTxSinksBatchAsWritten` | index.js:269-272 | one unparsable input makes the as-written call throw; with `NoData` raised as intended, only that input fails and the others are unaffected |
| `Loader.Loader.LookupParties` | index.js:291-336 | the result equals `Parties.Parties`; `lookup` gets each distinct non-empty address once and never an empty one; without a lookup function nothing is looked up |
| `Loader.Loader.LookupAll` | index.js:296-310 | through the `promiseByAddr` table, each position settles as the lookup of its address (a rejection for a falsy address); each distinct non-empty address is looked up exactly once |
| `Loader.Loader.MatchParties` | index.js:312-335 | the two `.some` scans compute `Parties.Select` |
| `Loader.Loader.ProcessPermission` | index.js:205-241 | record state and outcome as `Pipeline.ProcessPermission` |
| `Loader.Loader.ProcessTxInfo` | index.js:168-203 | record state and outcome as `Pipeline.ProcessTxInfo` |
| `Loader.Loader.ParseTx` | index.js:263-279 | keeps a validated caller record, otherwise parses into a fresh one (the caller's object unchanged); an unparsable transaction gives `NoData`; rejections are annotated with the record |
| `Loader.Loader.Decrypt` | index.js:126-141 | record state and outcome as `Pipeline.DecryptFile` |
| `Loader.Loader.ProcessSharedFile` | index.js:97-112 | record state and outcome as `Pipeline.ProcessSharedFile` |
| `Loader.Loader.LoadOne` | index.js:71-95 | the outcome is `Batch.Outcome` for the record used; that record's final state is `Pipeline.LoadRecord`'s; a record it does not keep is left untouched |
| `Loader.Loader.LoadKeeping` | index.js:67-69 | one `loadOne` call of the batch settles as `loadOne` alone would; no caller record that fails validation changes, and when no record appears twice no other input's record changes |
| `Loader.Loader.LoadMany` | index.js:67-69 | one outcome per input, in input order; when no record appears twice, the outcomes are exactly `Batch.Settle` of the inputs' jobs, and each outcome and final record state are those of that input loaded alone; a caller record that fails validation is re-parsed into a fresh object and keeps its state |
| `Loader.Loader.Load` | index.js:56-60 | a list settles per item as `loadMany` does; a single transaction goes to `loadOne`; the outcomes, the final record states and the untouched caller records are those of `loadMany` and `loadOne` |

## Left out

- The crypto primitives `utils.decryptAsync`, `utils.sharedEncryptionKey` and `Permission.recover` are foreign library calls. They are opaque function values here.
- `utils.sharedEncryptionKey` is modelled as total. A throw from it would reject the pipeline with an untyped error, and the model does not cover that.
- `TxInfo.parse` and `TxInfo.validate` come from an external library. They are an opaque partial function and an opaque predicate on the parsed part of the record.
- A raw transaction is never taken for a parsed record: `Pipeline.Reuses` only applies `validate` to `Record` inputs.
- Keeper I/O (`getOne`) is a lookup in a fixed map. `put` and `getMany` are only checked for presence by the constructor and are never called by the core.
- The concurrency of `Q.allSettled` and of the lookups is not modelled. Lookups and batch items run in input order. Only order and isolation are claimed.
- Loader.Loader.LoadMany: its link to each item's own outcome holds only when no record object appears twice in the list. With a shared record, the concurrent pipelines interleave their writes, and the source's result depends on scheduling.
- The constructor's `typeforce` checks, `bindPrototypeFunctions`, `extend`, `lookupWith` and `debug` logging have no behaviour to prove. The lookup function is fixed at construction.
- `getResult`'s value-or-function probing is not modelled. Key material is already-resolved optional strings. An empty string counts as absent, as it does in JavaScript.
- A null or undefined address is modelled as the empty string, the one falsy string.
- `lookup`'s second argument (`true`, asking for private keys) is not modelled.
- Comparing public values with `!==` is modelled as value equality. This matches the string values the lookups return. It does not cover `Buffer` objects, which `!==` compares by identity.
- The errors' `timestamp` and the original error wrapped by `FileNotFound` and `InvalidPermission` are not modelled. Each error carries its kind, its diagnostic (`txId`, `key` or shared key) and `progress`.
- Errors.WithProgress: the source mutates the error object. Here the annotation returns an updated error value. Each error has a single holder, so the difference cannot be observed.
- `_parseTxs` is not used by anything.
- The `assert(Q.isPromiseAlike(promise))` at index.js:306 is not modelled. The lookup is a function that settles, so it always passes. In the source, a `lookup` that returns a non-promise throws synchronously out of `_lookupParties`, `_processTxInfo` and `loadOne`. A list call then throws as a whole, as in the finding below.
- Loader.Loader.Load: a single transaction that parses to nothing resolves here with the intended `NoData` rejection. As written, `load(tx)` throws synchronously at index.js:271 instead (the same defect as in the finding below).
- Batch.LoadManyAsWritten: the as-written throw is modelled as the call giving nothing. The pipelines that `txs.map` started before the throw still run, and they go on writing to the caller's records after `load` has thrown. The model does not capture these writes.
- The commented-out stream and event code is not modelled.
- `errors.js` only supplies the list of error kinds.
- Only the permission transaction type is checked against the legacy 20-byte payload. Any other non-public type would follow the permission branch. The model has exactly the two types.

## Findings

| source | as written | input that shows it | evidently intended | confidence | as-written member | corrected member |
|---|---|---|---|---|---|---|
| index.js:269-273 | on a null parse result, `_parseTx` evaluates `parsed.txId`, which throws a TypeError synchronously inside `txs.map(this.loadOne)`; `load` throws and no transaction of the list settles; the single-transaction call `load(tx2)` throws the same way instead of rejecting | `load([tx1, tx2])` where `TxInfo.parse` yields nothing for `tx2` | reject `tx2` alone with `NoData` and settle `tx1` as usual | high, not executed | `Batch.UnparsableTxSinksBatchAsWritten` | `Loader.Loader.LoadMany` |

Other places where the code's behaviour is narrower or different from what one might
expect. All of these are modelled as the code has them:

- Without a lookup function, `_lookupParties` gives `{}`, not `null`, so the record's
  `from` and `to` are cleared.
- A `null` match leaves them as they were.
- The only payload check is the 20-byte legacy check on permission transactions.
- Payload `Decrypt` errors carry the record's `key`, and the legacy one its `sharedKey`.
  They do not carry a transaction id.
- Lookups are de-duplicated per `_lookupParties` call, which means per transaction
  (index.js:299). An address that appears in two transactions of one batch is looked up
  once for each of them, not once per `load` call.
- When a permission record is reloaded, `loadOne` uses the cached `encryptedData` as the
  permission file and stores it in `encryptedPermission`.
