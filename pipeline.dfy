/**
 * The per-transaction state machine of the loader as specification functions over a
 * record's state: `_processTxInfo` with `processPermission`, `_parseTx`, and `loadOne`
 * with `processSharedFile`, `loadPermission` and `decrypt`. Each returns the record's
 * new state together with how the step settled. The methods of `Loader` are proved
 * against these; the lemmas state what the loader promises.
 */
module Pipeline {
  import opened Wrappers
  import opened Encoding
  import opened TxRecords
  import opened Errors
  import Parties

  /** A step's outcome: the record's new state and the settled value. */
  datatype Step<+T> = Step(state: RecordState, result: Result<T, Error>)

  /** `fetch`: the keeper's bytes under `key`; a miss becomes `FileNotFound` naming the key. */
  function Fetch(c: Config, key: Option<string>): (r: Result<Bytes, Error>)
    ensures r.Success? <==> key.Some? && key.value in c.keeper
    ensures r.Success? ==> r.value == c.keeper[key.value]
    ensures r.Failure? ==> r.error == Raise(FileNotFound, KeyOf(key))
  {
    if key.Some? && key.value in c.keeper then Success(c.keeper[key.value])
    else Failure(Raise(FileNotFound, KeyOf(key)))
  }

  /** `isOldFormatTxData`: a permission transaction carrying the legacy 20-byte payload. */
  predicate IsOldFormatTxData(info: TxInfo) {
    info.txType == PermissionTx && |info.txData| == 20
  }

  /** `processPermission`, on a state whose parties have been looked up. */
  function ProcessPermission(c: Config, info: TxInfo, s: RecordState): Step<()>
  {
    if s.from.None? || s.to.None? then
      Step(s, Failure(Raise(ParticipantsNotFound, TxIdOf(info.txId))))
    else
      var s1 := s.(encryptedKey := Some(info.txData), sharedKey := Parties.SharedKey(c.ext, s.from, s.to));
      if s1.sharedKey.None? then
        Step(s1, Failure(Raise(ECDH, TxIdOf(info.txId))))
      else if s1.encryptedPermission.Some? then
        Step(s1, Success(()))
      else
        match c.ext.decrypt(info.txData, s1.sharedKey.value)
        case None => Step(s1, Failure(Raise(Decrypt, KeyOf(s1.key))))
        case Some(k) => Step(s1.(key := Some(Hex(k)), permissionKey := Some(Hex(k))), Success(()))
  }

  /**
   * The state after the party lookup of `_processTxInfo`: a non-`null` match overwrites
   * `from` and `to` (clearing them where the match lacks them); a `null` match changes nothing.
   */
  function WithParties(c: Config, p: ParsedTx, s: RecordState): (s1: RecordState)
    ensures s1.(from := s.from, to := s.to) == s
    ensures var m := Parties.Parties(c.lookup, p.info.addressesFrom, p.info.addressesTo);
      && (m.Some? ==> s1.from == m.value.from && s1.to == m.value.to)
      && (m.None? ==> s1 == s)
  {
    var m := Parties.Parties(c.lookup, p.info.addressesFrom, p.info.addressesTo);
    if m.Some? then s.(from := m.value.from, to := m.value.to) else s
  }

  /** `_processTxInfo(parsed)` for the record `p` in state `s`. */
  function ProcessTxInfo(c: Config, p: ParsedTx, s: RecordState): Step<ParsedTx>
  {
    var info := p.info;
    if s.permission.Some? then Step(s, Success(p))
    else if s.encryptedPermission.None? && !c.ext.validate(info) then
      Step(s, Failure(Raise(NotEnoughInfo, TxIdOf(info.txId))))
    else if s.encryptedPermission.None? && IsOldFormatTxData(info) then
      Step(s, Failure(Raise(Decrypt, SharedKeyOf(s.sharedKey))))
    else
      var s1 := WithParties(c, p, s);
      if info.txType == PublicTx then
        Step(s1.(key := Some(Hex(info.txData))), Success(p))
      else
        var st := ProcessPermission(c, info, s1);
        Step(st.state, if st.result.Success? then Success(p) else Failure(st.result.error))
  }

  /** Whether `_parseTx` keeps the caller's record (it passes validation) instead of parsing. */
  predicate Reuses(c: Config, tx: TxInput) {
    tx.Record? && c.ext.validate(tx.rec.info)
  }

  /** The parsed part `_parseTx` works with; `None` when parsing yields nothing. */
  function Parsed(c: Config, tx: TxInput): (r: Option<TxInfo>)
    ensures Reuses(c, tx) ==> r == Some(tx.rec.info)
    ensures !Reuses(c, tx) ==> r == c.ext.parse(tx, c.networkName, c.prefix)
  {
    if Reuses(c, tx) then Some(tx.rec.info) else c.ext.parse(tx, c.networkName, c.prefix)
  }

  /** The rejection of a transaction that parses to nothing; it carries no transaction id. */
  function NoDataError(): (e: Error)
    ensures e.kind == NoData && e.detail == NoDetail && e.progress.None?
  {
    Raise(NoData, NoDetail)
  }

  /** `loadPermission`: a recovered permission is reused; recovery failure names the record's key. */
  function LoadPermission(c: Config, s: RecordState, file: Bytes, sharedKey: Option<Bytes>): Result<Permission, Error>
  {
    if s.permission.Some? then Success(s.permission.value)
    else
      match c.ext.recover(file, sharedKey)
      case None => Failure(Raise(InvalidPermission, KeyOf(s.key)))
      case Some(perm) => Success(perm)
  }

  /** The inner `decrypt` of `loadOne`: the plaintext becomes `data` and the record is the result. */
  function DecryptFile(c: Config, p: ParsedTx, s: RecordState, file: Bytes, decryptionKey: Bytes): Step<Loaded>
  {
    match c.ext.decrypt(file, decryptionKey)
    case None => Step(s, Failure(Raise(Decrypt, KeyOf(s.key))))
    case Some(plain) => Step(s.(data := Some(plain)), Success(Resolved(p)))
  }

  /** `processSharedFile(file, sharedKey)`. */
  function ProcessSharedFile(c: Config, p: ParsedTx, s: RecordState, file: Bytes, sharedKey: Option<Bytes>): Step<Loaded>
  {
    match LoadPermission(c, s, file, sharedKey)
    case Failure(e) => Step(s, Failure(e))
    case Success(perm) =>
      var s1 := s.(permission := Some(perm), key := Some(perm.fileKey));
      var fetched := if s1.encryptedData.Some? then Success(s1.encryptedData.value) else Fetch(c, s1.key);
      match fetched
      case Failure(e) => Step(s1, Failure(e))
      case Success(content) =>
        var s2 := s1.(encryptedData := Some(content));
        match perm.decryptionKey
        case None => Step(s2, Success(Plain(content)))
        case Some(dk) => DecryptFile(c, p, s2, content, dk)
  }

  /** The part of `loadOne` after `_parseTx` has settled with the record `p` in state `s`. */
  function LoadParsed(c: Config, p: ParsedTx, s: RecordState): Step<Loaded>
  {
    var cached := if p.info.txType == PublicTx then s.data else s.encryptedData;
    var fetched := if cached.Some? then Success(cached.value) else Fetch(c, s.key);
    match fetched
    case Failure(e) => Step(s, Failure(e))
    case Success(d) =>
      if p.info.txType == PublicTx then Step(s.(data := Some(d)), Success(Resolved(p)))
      else
        var s1 := s.(encryptedPermission := Some(d));
        ProcessSharedFile(c, p, s1, d, s1.sharedKey)
  }

  /** `_parseTx` once the record `p` (in state `s`) has been chosen: its rejections are annotated with the record. */
  function ParseTxRecord(c: Config, p: ParsedTx, s: RecordState): Step<ParsedTx>
  {
    var st := ProcessTxInfo(c, p, s);
    if st.result.Failure? then Step(st.state, Failure(WithProgress(st.result.error, Some(p)))) else st
  }

  /**
   * `loadOne` once `_parseTx` has chosen the record `p` (in state `s`). Its `catch` annotates
   * with the `parsed` variable, which is still undefined when `_parseTx` itself rejected.
   */
  function LoadRecord(c: Config, p: ParsedTx, s: RecordState): Step<Loaded>
  {
    var st := ParseTxRecord(c, p, s);
    if st.result.Failure? then Step(st.state, Failure(WithProgress(st.result.error, None)))
    else
      var done := LoadParsed(c, p, st.state);
      Step(done.state, if done.result.Failure? then Failure(WithProgress(done.result.error, Some(p))) else done.result)
  }
}
