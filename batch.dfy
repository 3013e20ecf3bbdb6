/**
 * `load` over a list (`loadMany`): one settled outcome per input, in input order, each
 * depending only on its own transaction. Also the list case as the source writes it,
 * where a transaction that parses to nothing makes the whole call throw.
 */
module Batch {
  import opened Wrappers
  import opened TxRecords
  import opened Errors
  import opened Pipeline

  /** One input's pipeline: the record it works on (`None` when parsing yielded nothing) and that record's state at the start. */
  datatype Job = Job(rec: Option<ParsedTx>, init: RecordState)

  /** A batch's jobs: each input's record paired with that record's state at the start. */
  function Jobs(recs: seq<Option<ParsedTx>>, inits: seq<RecordState>): (jobs: seq<Job>)
    requires |recs| == |inits|
    ensures |jobs| == |recs|
  {
    seq(|recs|, i requires 0 <= i < |recs| => Job(recs[i], inits[i]))
  }

  /** How one input settles. */
  function Outcome(c: Config, j: Job): Result<Loaded, Error> {
    match j.rec
    case None => Failure(NoDataError())
    case Some(p) => LoadRecord(c, p, j.init).result
  }

  /** `Q.allSettled(txs.map(loadOne))`, each pipeline run on its own. */
  function Settle(c: Config, jobs: seq<Job>): (r: seq<Result<Loaded, Error>>)
    ensures |r| == |jobs|
  {
    if jobs == [] then [] else [Outcome(c, jobs[0])] + Settle(c, jobs[1..])
  }

  /** Exactly one outcome per input, at the input's position. */
  lemma {:induction false} SettleInOrder(c: Config, jobs: seq<Job>)
    ensures forall i :: 0 <= i < |jobs| ==> Settle(c, jobs)[i] == Outcome(c, jobs[i])
  {
    if jobs != [] {
      SettleInOrder(c, jobs[1..]);
    }
  }

  /** Replacing one input, failing or not, leaves every other outcome as it was. */
  lemma {:induction false} SettleIsolates(c: Config, jobs: seq<Job>, k: nat, other: Job)
    requires k < |jobs|
    ensures forall i :: 0 <= i < |jobs| && i != k ==> Settle(c, jobs[k := other])[i] == Settle(c, jobs)[i]
  {
    SettleInOrder(c, jobs);
    SettleInOrder(c, jobs[k := other]);
  }

  /**
   * The list case as written: `_parseTx` builds `NoData` from `parsed.txId` with `parsed`
   * null, which throws a TypeError synchronously inside `txs.map`, so `load` throws instead of
   * settling. `None` is that throw.
   */
  function LoadManyAsWritten(c: Config, jobs: seq<Job>): (r: Option<seq<Result<Loaded, Error>>>)
    ensures r.Some? <==> forall i :: 0 <= i < |jobs| ==> jobs[i].rec.Some?
    ensures r.Some? ==> r.value == Settle(c, jobs)
  {
    if exists i :: 0 <= i < |jobs| && jobs[i].rec.None? then None else Some(Settle(c, jobs))
  }

  /**
   * One unparsable transaction: as written the whole call throws and no transaction settles;
   * with `NoData` raised as intended, that transaction alone settles as `NoData` and the
   * others settle as they would on their own.
   */
  lemma {:induction false} UnparsableTxSinksBatchAsWritten(c: Config, jobs: seq<Job>, k: nat)
    requires k < |jobs| && jobs[k].rec.None?
    ensures LoadManyAsWritten(c, jobs).None?
    ensures Settle(c, jobs)[k] == Failure(NoDataError())
    ensures forall i :: 0 <= i < |jobs| && i != k ==> Settle(c, jobs)[i] == Outcome(c, jobs[i])
  {
    SettleInOrder(c, jobs);
  }
}
