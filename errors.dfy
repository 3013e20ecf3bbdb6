/** The typed errors of the loader, and the `progress` annotation they receive. */
module Errors {
  import opened Wrappers
  import opened Encoding
  import opened TxRecords

  datatype ErrorKind =
    | NoData
    | NotEnoughInfo
    | ParticipantsNotFound
    | ECDH
    | Decrypt
    | InvalidPermission
    | FileNotFound

  /** The diagnostic each error is built with. */
  datatype Detail =
    | TxIdOf(txId: string)
    | KeyOf(key: Option<string>)
    | SharedKeyOf(sharedKey: Option<Bytes>)
    | NoDetail

  /** An error; `progress` is the record it was annotated with, if any. */
  datatype Error = Error(kind: ErrorKind, detail: Detail, progress: Option<ParsedTx>)

  /** A freshly raised error, not yet annotated. */
  function Raise(kind: ErrorKind, detail: Detail): (e: Error)
    ensures e.kind == kind && e.detail == detail && e.progress.None?
  {
    Error(kind, detail, None)
  }

  /** `errorWithProgress`: the first annotation is kept, later ones are ignored. */
  function WithProgress(e: Error, parsed: Option<ParsedTx>): (r: Error)
    ensures r.kind == e.kind && r.detail == e.detail
    ensures e.progress.Some? ==> r == e
    ensures e.progress.None? ==> r.progress == parsed
  {
    if e.progress.None? then e.(progress := parsed) else e
  }
}
