/** What the per-transaction pipeline promises, stated over the specification functions of `Pipeline`. */
module PipelineProperties {
  import opened Wrappers
  import opened Encoding
  import opened TxRecords
  import opened Errors
  import opened Parties
  import opened Pipeline

  /** A record that already carries a permission is returned unchanged, whatever the lookup would say. */
  lemma PermissionShortCircuits(c: Config, p: ParsedTx, s: RecordState, lookup: Option<string -> Option<Identity>>)
    requires s.permission.Some?
    ensures ProcessTxInfo(c, p, s) == Step(s, Success(p))
    ensures ProcessTxInfo(c.(lookup := lookup), p, s) == ProcessTxInfo(c, p, s)
  {
  }

  /**
   * Without an encrypted permission, an invalid record is rejected with `NotEnoughInfo`, and a
   * valid legacy permission record with `Decrypt` naming its shared key; both leave the record
   * as it was and do not depend on the lookup (no party is looked up).
   */
  lemma EarlyRejections(c: Config, p: ParsedTx, s: RecordState, lookup: Option<string -> Option<Identity>>)
    requires s.permission.None? && s.encryptedPermission.None?
    ensures !c.ext.validate(p.info) ==>
      ProcessTxInfo(c, p, s) == Step(s, Failure(Raise(NotEnoughInfo, TxIdOf(p.info.txId))))
    ensures c.ext.validate(p.info) && IsOldFormatTxData(p.info) ==>
      ProcessTxInfo(c, p, s) == Step(s, Failure(Raise(Decrypt, SharedKeyOf(s.sharedKey))))
    ensures !c.ext.validate(p.info) || IsOldFormatTxData(p.info) ==>
      ProcessTxInfo(c.(lookup := lookup), p, s) == ProcessTxInfo(c, p, s)
  {
  }

  /** Whether the record gets past the early checks of `_processTxInfo` to the party lookup. */
  predicate PassesChecks(c: Config, p: ParsedTx, s: RecordState) {
    s.permission.None? &&
    (s.encryptedPermission.Some? || (c.ext.validate(p.info) && !IsOldFormatTxData(p.info)))
  }

  /** A public record that passes the checks gets `key` = hex of its payload; nothing is decrypted. */
  lemma PublicKeyIsHexOfPayload(c: Config, p: ParsedTx, s: RecordState)
    requires p.info.txType == PublicTx && PassesChecks(c, p, s)
    ensures ProcessTxInfo(c, p, s) == Step(WithParties(c, p, s).(key := Some(Hex(p.info.txData))), Success(p))
  {
  }

  /**
   * The permission branch fails at the first of: no `from` or no `to` (`ParticipantsNotFound`),
   * no shared key (`ECDH`), payload decryption failure (`Decrypt` naming the current key).
   * On success the key and the permission key are both the hex of the decrypted payload,
   * unless an encrypted permission is already there, in which case nothing is decrypted.
   */
  lemma PermissionErrorOrder(c: Config, p: ParsedTx, s: RecordState, decrypt: (Bytes, Bytes) -> Option<Bytes>)
    requires p.info.txType == PermissionTx && PassesChecks(c, p, s)
    ensures var s1 := WithParties(c, p, s);
      var st := ProcessTxInfo(c, p, s);
      var sk := SharedKey(c.ext, s1.from, s1.to);
      var s2 := s1.(encryptedKey := Some(p.info.txData), sharedKey := sk);
      && (s1.from.None? || s1.to.None? ==>
            st == Step(s1, Failure(Raise(ParticipantsNotFound, TxIdOf(p.info.txId)))))
      && (s1.from.Some? && s1.to.Some? && sk.None? ==>
            st == Step(s2, Failure(Raise(ECDH, TxIdOf(p.info.txId)))))
      && (s1.from.Some? && s1.to.Some? && sk.Some? && s.encryptedPermission.Some? ==>
            st == Step(s2, Success(p)))
      && (s1.from.Some? && s1.to.Some? && sk.Some? && s.encryptedPermission.None? ==>
            match c.ext.decrypt(p.info.txData, sk.value)
            case None => st == Step(s2, Failure(Raise(Decrypt, KeyOf(s.key))))
            case Some(k) => st == Step(s2.(key := Some(Hex(k)), permissionKey := Some(Hex(k))), Success(p)))
    ensures s.encryptedPermission.Some? ==>
      ProcessTxInfo(c.(ext := c.ext.(decrypt := decrypt)), p, s) == ProcessTxInfo(c, p, s)
  {
  }

  /**
   * The permission key names the decrypted payload: two permission records that decrypt
   * their payloads successfully and end with the same `permissionKey` decrypted the same bytes.
   */
  lemma {:induction false} PermissionKeyNamesPayload(c: Config, p: ParsedTx, s: RecordState, q: ParsedTx, t: RecordState)
    requires p.info.txType == PermissionTx && PassesChecks(c, p, s) && s.encryptedPermission.None?
    requires q.info.txType == PermissionTx && PassesChecks(c, q, t) && t.encryptedPermission.None?
    requires ProcessTxInfo(c, p, s).result.Success? && ProcessTxInfo(c, q, t).result.Success?
    requires ProcessTxInfo(c, p, s).state.permissionKey == ProcessTxInfo(c, q, t).state.permissionKey
    ensures ProcessTxInfo(c, p, s).state.sharedKey.Some? && ProcessTxInfo(c, q, t).state.sharedKey.Some?
    ensures c.ext.decrypt(p.info.txData, ProcessTxInfo(c, p, s).state.sharedKey.value) ==
            c.ext.decrypt(q.info.txData, ProcessTxInfo(c, q, t).state.sharedKey.value)
  {
    PermissionErrorOrder(c, p, s, c.ext.decrypt);
    PermissionErrorOrder(c, q, t, c.ext.decrypt);
    var kp := c.ext.decrypt(p.info.txData, ProcessTxInfo(c, p, s).state.sharedKey.value);
    var kq := c.ext.decrypt(q.info.txData, ProcessTxInfo(c, q, t).state.sharedKey.value);
    HexInjective(kp.value, kq.value);
  }

  /**
   * The self-transaction guard: when every address that resolves, on either side, resolves
   * to one and the same public value, no `to` is chosen and a fresh permission record is
   * rejected with `ParticipantsNotFound`. This includes a lookup that rejects every address.
   */
  lemma SelfTransactionIsParticipantsNotFound(c: Config, p: ParsedTx,
                                                                lookup: string -> Option<Identity>, v: Option<string>)
    requires p.info.txType == PermissionTx && c.ext.validate(p.info) && !IsOldFormatTxData(p.info)
    requires c.lookup == Some(lookup)
    requires forall a :: a in p.info.addressesFrom + p.info.addressesTo && Resolve(lookup, a).Some? ==>
      Resolve(lookup, a).value.key.value == v
    ensures ProcessTxInfo(c, p, Blank()).result == Failure(Raise(ParticipantsNotFound, TxIdOf(p.info.txId)))
  {
  }

  /**
   * A permission record with no cached content whose party and payload steps succeed goes to
   * the keeper for the permission file under its key; when the keeper lacks that key, the
   * load fails with `FileNotFound` naming it, carrying the record, and the record keeps the
   * state the payload steps left.
   */
  lemma PermissionFileMissing(c: Config, p: ParsedTx, s: RecordState)
    requires p.info.txType == PermissionTx && s.encryptedData.None?
    requires ParseTxRecord(c, p, s).result.Success?
    requires var k := ParseTxRecord(c, p, s).state.key; k.None? || k.value !in c.keeper
    ensures LoadRecord(c, p, s) ==
      Step(ParseTxRecord(c, p, s).state, Failure(Error(FileNotFound, KeyOf(ParseTxRecord(c, p, s).state.key), Some(p))))
  {
  }

  /**
   * A public record with no cached `data` goes to the keeper under its key (the hex of its
   * payload, unless a permission made the checks return early); when the keeper lacks it, the load fails with `FileNotFound` naming that key,
   * carrying the record.
   */
  lemma PublicFileMissing(c: Config, p: ParsedTx, s: RecordState)
    requires p.info.txType == PublicTx && s.data.None?
    requires ParseTxRecord(c, p, s).result.Success?
    requires var k := ParseTxRecord(c, p, s).state.key; k.None? || k.value !in c.keeper
    ensures s.permission.None? ==> ParseTxRecord(c, p, s).state.key == Some(Hex(p.info.txData))
    ensures LoadRecord(c, p, s) ==
      Step(ParseTxRecord(c, p, s).state, Failure(Error(FileNotFound, KeyOf(ParseTxRecord(c, p, s).state.key), Some(p))))
  {
  }

  /** A cached public `data` is used as is: the keeper is not consulted and the record is the result. */
  lemma CachedPublicDataSkipsFetch(c: Config, p: ParsedTx, s: RecordState, keeper: map<string, Bytes>)
    requires p.info.txType == PublicTx && s.data.Some?
    ensures LoadParsed(c, p, s) == Step(s, Success(Resolved(p)))
    ensures LoadParsed(c.(keeper := keeper), p, s) == LoadParsed(c, p, s)
  {
  }

  /**
   * A permission record with cached `encryptedData` never goes to the keeper, whatever state
   * the earlier load left it in (a failed content decryption included) and wherever the
   * cached content came from.
   */
  lemma CachedEncryptedDataSkipsFetch(c: Config, p: ParsedTx, s: RecordState, keeper: map<string, Bytes>)
    requires p.info.txType == PermissionTx && s.encryptedData.Some?
    ensures LoadParsed(c.(keeper := keeper), p, s) == LoadParsed(c, p, s)
    ensures LoadParsed(c, p, s) ==
      ProcessSharedFile(c, p, s.(encryptedPermission := s.encryptedData), s.encryptedData.value, s.sharedKey)
  {
  }

  /** A recovered permission already on the record is reused; `Permission.recover` is not consulted. */
  lemma CachedPermissionSkipsRecover(c: Config, s: RecordState, file: Bytes, sharedKey: Option<Bytes>,
                                     recover: (Bytes, Option<Bytes>) -> Option<Permission>)
    requires s.permission.Some?
    ensures LoadPermission(c, s, file, sharedKey) == Success(s.permission.value)
    ensures LoadPermission(c.(ext := c.ext.(recover := recover)), s, file, sharedKey) == LoadPermission(c, s, file, sharedKey)
  {
  }

  /** A recovery failure becomes `InvalidPermission` naming the record's key at that moment. */
  lemma RecoverFailureIsInvalidPermission(c: Config, s: RecordState, file: Bytes, sharedKey: Option<Bytes>)
    requires s.permission.None? && c.ext.recover(file, sharedKey).None?
    ensures LoadPermission(c, s, file, sharedKey) == Failure(Raise(InvalidPermission, KeyOf(s.key)))
  {
  }

  /**
   * After a successful permission load: the key is the permission's file key, the content is
   * kept as `encryptedData`, and the result is the content itself when the permission has no
   * decryption key, or the record with the decrypted `data` when it has one.
   */
  lemma PermissionSuccess(c: Config, p: ParsedTx, s: RecordState)
    requires p.info.txType == PermissionTx
    requires LoadParsed(c, p, s).result.Success?
    ensures var done := LoadParsed(c, p, s);
      && done.state.permission.Some?
      && done.state.key == Some(done.state.permission.value.fileKey)
      && done.state.encryptedData.Some?
      && done.state.encryptedPermission.Some?
      && match done.state.permission.value.decryptionKey
         case None => done.result == Success(Plain(done.state.encryptedData.value))
         case Some(dk) =>
           done.result == Success(Resolved(p)) &&
           done.state.data == c.ext.decrypt(done.state.encryptedData.value, dk)
  {
  }

  /** A content decryption failure is `Decrypt` naming the file key; the content stays cached. */
  lemma ContentDecryptFailure(c: Config, p: ParsedTx, s: RecordState, file: Bytes, sharedKey: Option<Bytes>)
    requires LoadPermission(c, s, file, sharedKey).Success?
    requires s.encryptedData.Some? || LoadPermission(c, s, file, sharedKey).value.fileKey in c.keeper
    requires var perm := LoadPermission(c, s, file, sharedKey).value;
      var content := if s.encryptedData.Some? then s.encryptedData.value else c.keeper[perm.fileKey];
      perm.decryptionKey.Some? && c.ext.decrypt(content, perm.decryptionKey.value).None?
    ensures var perm := LoadPermission(c, s, file, sharedKey).value;
      var content := if s.encryptedData.Some? then s.encryptedData.value else c.keeper[perm.fileKey];
      ProcessSharedFile(c, p, s, file, sharedKey) ==
        Step(s.(permission := Some(perm), key := Some(perm.fileKey), encryptedData := Some(content)),
             Failure(Raise(Decrypt, KeyOf(Some(perm.fileKey)))))
  {
  }

  /** Every rejection of a record's pipeline carries that record as its progress. */
  lemma FailuresCarryTheRecord(c: Config, p: ParsedTx, s: RecordState)
    requires LoadRecord(c, p, s).result.Failure?
    ensures LoadRecord(c, p, s).result.error.progress == Some(p)
  {
  }

  /**
   * End to end, permission transaction on a fresh record: when the parties resolve, a shared
   * key is derived, the payload decrypts to `k`, the keeper holds the permission under
   * `hex(k)`, it recovers to a permission without a decryption key for file `fileKey`, the
   * result is the keeper's bytes under `fileKey`; when the keeper lacks `fileKey`, the result
   * is `FileNotFound` naming `fileKey`.
   */
  lemma PermissionEndToEnd(c: Config, p: ParsedTx, sk: Bytes, k: Bytes, fileKey: string)
    requires p.info.txType == PermissionTx && c.ext.validate(p.info) && !IsOldFormatTxData(p.info)
    requires var s1 := WithParties(c, p, Blank());
      s1.from.Some? && s1.to.Some? && SharedKey(c.ext, s1.from, s1.to) == Some(sk)
    requires c.ext.decrypt(p.info.txData, sk) == Some(k)
    requires Hex(k) in c.keeper
    requires c.ext.recover(c.keeper[Hex(k)], Some(sk)) == Some(Permission(fileKey, None))
    ensures fileKey in c.keeper ==> LoadRecord(c, p, Blank()).result == Success(Plain(c.keeper[fileKey]))
    ensures fileKey !in c.keeper ==>
      LoadRecord(c, p, Blank()).result == Failure(Error(FileNotFound, KeyOf(Some(fileKey)), Some(p)))
  {
  }

  /** End to end, public transaction on a fresh record: the keeper's bytes under the hex of the payload become `data`. */
  lemma PublicEndToEnd(c: Config, p: ParsedTx)
    requires p.info.txType == PublicTx && c.ext.validate(p.info)
    requires Hex(p.info.txData) in c.keeper
    ensures LoadRecord(c, p, Blank()).result == Success(Resolved(p))
    ensures LoadRecord(c, p, Blank()).state.data == Some(c.keeper[Hex(p.info.txData)])
    ensures LoadRecord(c, p, Blank()).state.key == Some(Hex(p.info.txData))
  {
  }

  /**
   * Revisiting a record whose permission load succeeded repeats only the final decryption:
   * the result is the same whatever the lookup, the keeper and `Permission.recover` now say,
   * and the only change to the record is that the cached content is also stored as the
   * encrypted permission.
   */
  lemma RevisitPermission(c: Config, p: ParsedTx, s: RecordState,
                                            lookup: Option<string -> Option<Identity>>, keeper: map<string, Bytes>,
                                            recover: (Bytes, Option<Bytes>) -> Option<Permission>)
    requires p.info.txType == PermissionTx
    requires LoadRecord(c, p, s).result.Success?
    ensures var first := LoadRecord(c, p, s);
      var c' := c.(lookup := lookup, keeper := keeper, ext := c.ext.(recover := recover));
      LoadRecord(c', p, first.state) ==
        Step(first.state.(encryptedPermission := first.state.encryptedData), first.result)
  {
  }

  /** Revisiting a loaded public record leaves it as it is and does not consult the keeper. */
  lemma RevisitPublic(c: Config, p: ParsedTx, s: RecordState, keeper: map<string, Bytes>)
    requires p.info.txType == PublicTx
    requires LoadRecord(c, p, s).result.Success?
    ensures var first := LoadRecord(c, p, s);
      LoadRecord(c.(keeper := keeper), p, first.state) == first
  {
  }
}
