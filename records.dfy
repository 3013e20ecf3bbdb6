/**
 * The transaction record the loader works on, and the collaborators it calls
 * (transaction parser, identity lookup, keeper store, crypto), which are
 * opaque here and enter the model as function values.
 */
module TxRecords {
  import opened Wrappers
  import opened Encoding

  /** Key material of an identity; JavaScript's `key.priv` and `key.value`. */
  datatype Key = Key(priv: Option<string>, value: Option<string>)

  /** What the identity lookup resolves with: an object with a `key`. */
  datatype Identity = Identity(key: Key)

  /** A recovered permission: `fileKeyString()` and `decryptionKeyBuf()` (null when absent). */
  datatype Permission = Permission(fileKey: string, decryptionKey: Option<Bytes>)

  datatype TxType = PublicTx | PermissionTx

  /** What the transaction parser extracts from a transaction; never changed afterwards. */
  datatype TxInfo = TxInfo(
    txId: string,
    txType: TxType,
    txData: Bytes,
    addressesFrom: seq<string>,
    addressesTo: seq<string>)

  /** The fields the pipeline writes on a parsed record; `None` is an absent (undefined) field. */
  datatype RecordState = RecordState(
    key: Option<string>,
    permissionKey: Option<string>,
    encryptedKey: Option<Bytes>,
    sharedKey: Option<Bytes>,
    from: Option<Identity>,
    to: Option<Identity>,
    permission: Option<Permission>,
    encryptedPermission: Option<Bytes>,
    encryptedData: Option<Bytes>,
    data: Option<Bytes>)

  /** The state of a record just produced by the transaction parser. */
  function Blank(): (s: RecordState)
    ensures s.permission.None? && s.encryptedPermission.None? && s.encryptedData.None? && s.data.None?
    ensures s.key.None? && s.sharedKey.None? && s.from.None? && s.to.None?
  {
    RecordState(None, None, None, None, None, None, None, None, None, None)
  }

  /** A parsed transaction: its parsed part is fixed, the rest doubles as a cache across visits. */
  class ParsedTx {
    const info: TxInfo
    var key: Option<string>
    var permissionKey: Option<string>
    var encryptedKey: Option<Bytes>
    var sharedKey: Option<Bytes>
    var from: Option<Identity>
    var to: Option<Identity>
    var permission: Option<Permission>
    var encryptedPermission: Option<Bytes>
    var encryptedData: Option<Bytes>
    var data: Option<Bytes>

    function State(): RecordState
      reads this
    {
      RecordState(key, permissionKey, encryptedKey, sharedKey, from, to,
                  permission, encryptedPermission, encryptedData, data)
    }

    /** A record as the transaction parser returns it. */
    constructor (info: TxInfo)
      ensures this.info == info && State() == Blank()
    {
      this.info := info;
      key, permissionKey, encryptedKey, sharedKey := None, None, None, None;
      from, to, permission := None, None, None;
      encryptedPermission, encryptedData, data := None, None, None;
    }
  }

  /** What `load` accepts per item: a record parsed earlier, or a raw ledger transaction (hex). */
  datatype TxInput = Record(rec: ParsedTx) | Raw(tx: Bytes)
  {
    /** The caller's object that loading may update. */
    function Objects(): set<object> {
      if Record? then {rec} else {}
    }
  }

  /** What one transaction resolves with: the record itself, or the bare content bytes. */
  datatype Loaded = Resolved(rec: ParsedTx) | Plain(file: Bytes)

  /**
   * The external libraries: `TxInfo.validate`, `TxInfo.parse`, `utils.decryptAsync`,
   * `utils.sharedEncryptionKey` and `Permission.recover`. `None` is a failure.
   */
  datatype Externals = Externals(
    validate: TxInfo -> bool,
    parse: (TxInput, string, string) -> Option<TxInfo>,
    decrypt: (Bytes, Bytes) -> Option<Bytes>,
    sharedEncryptionKey: (string, string) -> Bytes,
    recover: (Bytes, Option<Bytes>) -> Option<Permission>)

  /**
   * The loader's options: the optional identity lookup (resolving with `None` models a
   * rejection or an empty answer), the keeper's contents, the network name and the
   * OP_RETURN prefix handed to the parser.
   */
  datatype Config = Config(
    lookup: Option<string -> Option<Identity>>,
    keeper: map<string, Bytes>,
    networkName: string,
    prefix: string,
    ext: Externals)
}
