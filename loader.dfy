/**
 * The loader: resolves ledger transactions to files, updating each transaction's record
 * step by step. Every method is proved against the specification functions of `Parties`,
 * `Pipeline` and `Batch`.
 */
module Loader {
  import opened Wrappers
  import opened Encoding
  import opened TxRecords
  import opened Errors
  import Parties
  import Pipeline
  import Batch

  /** What `load` accepts: a list of transactions, or a single one. */
  datatype LoadInput = Many(txs: seq<TxInput>) | One(tx: TxInput)
  {
    function Objects(): set<object> {
      if One? then tx.Objects() else set i | 0 <= i < |txs| && txs[i].Record? :: txs[i].rec
    }
  }

  /** What `load` resolves with: settled outcomes for a list, one outcome for a single transaction. */
  datatype LoadOutput = Settled(results: seq<Result<Loaded, Error>>) | Single(result: Result<Loaded, Error>)

  /** The records a state for `tx` is read from, before `_parseTx` runs. */
  function InitialState(c: Config, tx: TxInput): RecordState
    reads tx.Objects()
  {
    if Pipeline.Reuses(c, tx) then tx.rec.State() else Blank()
  }

  /** The starting state of every input of a batch. */
  function InitialStates(c: Config, txs: seq<TxInput>): (inits: seq<RecordState>)
    reads Many(txs).Objects()
    ensures |inits| == |txs|
    ensures forall i :: 0 <= i < |txs| ==> inits[i] == InitialState(c, txs[i])
  {
    seq(|txs|, i reads Many(txs).Objects() requires 0 <= i < |txs| => InitialState(c, txs[i]))
  }

  /** No caller record appears twice in a batch. */
  predicate DistinctRecords(txs: seq<TxInput>) {
    forall i, j :: 0 <= i < j < |txs| && txs[i].Record? && txs[j].Record? ==> txs[i].rec != txs[j].rec
  }

  /** How loading `tx` settled, given the record it worked on and that record's state before. */
  predicate Settles(c: Config, tx: TxInput, rec: Option<ParsedTx>, init: RecordState, r: Result<Loaded, Error>) {
    && (rec.None? <==> Pipeline.Parsed(c, tx).None?)
    && (rec.Some? ==> rec.value.info == Pipeline.Parsed(c, tx).value)
    && (Pipeline.Reuses(c, tx) ==> rec == Some(tx.rec))
    && r == Batch.Outcome(c, Batch.Job(rec, init))
  }

  class Loader {
    const config: Config

    constructor (config: Config)
      ensures this.config == config
    {
      this.config := config;
    }

    /**
     * `_lookupParties(from, to)`: looks each distinct non-empty address up once, through a
     * per-call table, and matches the settled results. The ghost `calls` lists the addresses handed
     * to the lookup function, in the order it was asked.
     */
    method LookupParties(from: seq<string>, to: seq<string>) returns (matches: Option<Parties.Matches>, ghost calls: seq<string>)
      ensures matches == Parties.Parties(config.lookup, from, to)
      ensures config.lookup.None? ==> calls == []
      ensures config.lookup.Some? ==> forall a :: a in calls <==> a in from + to && a != ""
      ensures forall i, j :: 0 <= i < j < |calls| ==> calls[i] != calls[j]
    {
      if config.lookup.None? {
        return Some(Parties.Matches(None, None)), [];
      }
      var results;
      results, calls := LookupAll(config.lookup.value, from + to);
      matches := MatchParties(results, |from|);
    }

    /**
     * The lookups of `_lookupParties`: a falsy address settles as a rejection without a
     * lookup, and `promiseByAddr` makes a repeated address reuse the first lookup.
     */
    static method LookupAll(lookup: string -> Option<Identity>, all: seq<string>)
      returns (results: seq<Option<Identity>>, ghost calls: seq<string>)
      ensures results == Parties.Results(lookup, all)
      ensures forall a :: a in calls <==> a in all && a != ""
      ensures forall i, j :: 0 <= i < j < |calls| ==> calls[i] != calls[j]
    {
      var promiseByAddr: map<string, Option<Identity>> := map[];
      results, calls := [], [];
      var i := 0;
      while i < |all|
        invariant 0 <= i <= |all| && |results| == i
        invariant forall k :: 0 <= k < i ==> results[k] == Parties.Resolve(lookup, all[k])
        invariant forall a :: a in promiseByAddr ==> promiseByAddr[a] == lookup(a)
        invariant forall a :: a in promiseByAddr <==> a in calls
        invariant forall a :: a in calls <==> a in all[..i] && a != ""
        invariant forall p, q :: 0 <= p < q < |calls| ==> calls[p] != calls[q]
      {
        var f := all[i];
        if f == "" {
          results := results + [None];
        } else {
          if f !in promiseByAddr {
            promiseByAddr := promiseByAddr[f := lookup(f)];
            calls := calls + [f];
          }
          results := results + [promiseByAddr[f]];
        }
        assert all[..i + 1] == all[..i] + [f];
        i := i + 1;
      }
      assert all[..i] == all;
    }

    /**
     * The two `.some` scans of `_lookupParties` over the settled results, `n` being the
     * number of sender addresses.
     */
    static method MatchParties(results: seq<Option<Identity>>, n: nat) returns (matches: Option<Parties.Matches>)
      requires n <= |results|
      ensures matches == Parties.Select(results, n)
    {
      var k := 0;
      while k < n && results[k].None?
        invariant 0 <= k <= n
        invariant forall j :: 0 <= j < k ==> results[j].None?
      {
        k := k + 1;
      }
      assert k == Parties.FirstResolvedAt(results[..n]);
      if k == n {
        return None;
      }
      var sender := results[k].value;
      var back := results[n..];
      var j := 0;
      while j < |back| && !Parties.Counterpart(back[j], sender)
        invariant 0 <= j <= |back|
        invariant forall q :: 0 <= q < j ==> !Parties.Counterpart(back[q], sender)
      {
        j := j + 1;
      }
      assert j == Parties.FirstCounterpartAt(back, sender);
      matches := Some(Parties.Matches(Some(sender), if j < |back| then back[j] else None));
    }

    /** `processPermission`: parties, then the shared key, then the payload's decryption. */
    method ProcessPermission(parsed: ParsedTx) returns (r: Result<(), Error>)
      modifies parsed
      ensures Pipeline.ProcessPermission(config, parsed.info, old(parsed.State())) == Pipeline.Step(parsed.State(), r)
    {
      if parsed.from.None? || parsed.to.None? {
        return Failure(Raise(ParticipantsNotFound, TxIdOf(parsed.info.txId)));
      }
      parsed.encryptedKey := Some(parsed.info.txData);
      parsed.sharedKey := Parties.SharedKey(config.ext, parsed.from, parsed.to);
      if parsed.sharedKey.None? {
        return Failure(Raise(ECDH, TxIdOf(parsed.info.txId)));
      }
      if parsed.encryptedPermission.Some? {
        return Success(());
      }
      match config.ext.decrypt(parsed.info.txData, parsed.sharedKey.value)
      case None =>
        r := Failure(Raise(ErrorKind.Decrypt, KeyOf(parsed.key)));
      case Some(k) =>
        parsed.key := Some(Hex(k));
        parsed.permissionKey := parsed.key;
        r := Success(());
    }

    /** `_processTxInfo(parsed)`. */
    method ProcessTxInfo(parsed: ParsedTx) returns (r: Result<ParsedTx, Error>)
      modifies parsed
      ensures Pipeline.ProcessTxInfo(config, parsed, old(parsed.State())) == Pipeline.Step(parsed.State(), r)
    {
      if parsed.permission.Some? {
        return Success(parsed);
      }
      if parsed.encryptedPermission.None? {
        if !config.ext.validate(parsed.info) {
          return Failure(Raise(NotEnoughInfo, TxIdOf(parsed.info.txId)));
        }
        if Pipeline.IsOldFormatTxData(parsed.info) {
          return Failure(Raise(ErrorKind.Decrypt, SharedKeyOf(parsed.sharedKey)));
        }
      }
      var matches, _ := LookupParties(parsed.info.addressesFrom, parsed.info.addressesTo);
      if matches.Some? {
        parsed.from := matches.value.from;
        parsed.to := matches.value.to;
      }
      if parsed.info.txType == PublicTx {
        parsed.key := Some(Hex(parsed.info.txData));
        r := Success(parsed);
      } else {
        var done := ProcessPermission(parsed);
        r := if done.Success? then Success(parsed) else Failure(done.error);
      }
    }

    /**
     * `_parseTx(tx)`: keeps a record that passes validation, otherwise parses into a new one;
     * `rec` is the record the pipeline works on.
     */
    method ParseTx(tx: TxInput) returns (r: Result<ParsedTx, Error>, ghost rec: Option<ParsedTx>)
      modifies tx.Objects()
      ensures rec.None? <==> Pipeline.Parsed(config, tx).None?
      ensures rec.None? ==> r == Failure(Pipeline.NoDataError()) && unchanged(tx.Objects())
      ensures rec.Some? ==> rec.value.info == Pipeline.Parsed(config, tx).value
      ensures Pipeline.Reuses(config, tx) ==> rec == Some(tx.rec)
      ensures !Pipeline.Reuses(config, tx) ==> unchanged(tx.Objects()) && (rec.Some? ==> fresh(rec.value))
      ensures rec.Some? ==>
        Pipeline.ParseTxRecord(config, rec.value, old(InitialState(config, tx))) == Pipeline.Step(rec.value.State(), r)
    {
      var parsed: ParsedTx;
      if Pipeline.Reuses(config, tx) {
        parsed := tx.rec;
      } else {
        match config.ext.parse(tx, config.networkName, config.prefix)
        case None =>
          return Failure(Pipeline.NoDataError()), None;
        case Some(info) =>
          parsed := new ParsedTx(info);
      }
      rec := Some(parsed);
      var processed := ProcessTxInfo(parsed);
      r := if processed.Failure? then Failure(WithProgress(processed.error, Some(parsed))) else processed;
    }

    /** The inner `decrypt` of `loadOne`. */
    method Decrypt(parsed: ParsedTx, file: Bytes, decryptionKey: Bytes) returns (r: Result<Loaded, Error>)
      modifies parsed
      ensures Pipeline.DecryptFile(config, parsed, old(parsed.State()), file, decryptionKey) == Pipeline.Step(parsed.State(), r)
    {
      match config.ext.decrypt(file, decryptionKey)
      case None =>
        r := Failure(Raise(ErrorKind.Decrypt, KeyOf(parsed.key)));
      case Some(plain) =>
        parsed.data := Some(plain);
        r := Success(Resolved(parsed));
    }

    /** `processSharedFile(file, sharedKey)`: recover the permission, fetch the content, decrypt it if the permission says so. */
    method ProcessSharedFile(parsed: ParsedTx, file: Bytes, sharedKey: Option<Bytes>) returns (r: Result<Loaded, Error>)
      modifies parsed
      ensures Pipeline.ProcessSharedFile(config, parsed, old(parsed.State()), file, sharedKey) == Pipeline.Step(parsed.State(), r)
    {
      var permission := Pipeline.LoadPermission(config, parsed.State(), file, sharedKey);
      if permission.Failure? {
        return Failure(permission.error);
      }
      var perm := permission.value;
      parsed.permission := Some(perm);
      parsed.key := Some(perm.fileKey);
      var fetched := if parsed.encryptedData.Some? then Success(parsed.encryptedData.value) else Pipeline.Fetch(config, parsed.key);
      if fetched.Failure? {
        return Failure(fetched.error);
      }
      var content := fetched.value;
      parsed.encryptedData := Some(content);
      match perm.decryptionKey
      case None =>
        r := Success(Plain(content));
      case Some(dk) =>
        r := Decrypt(parsed, content, dk);
    }

    /** `loadOne(tx)`. */
    method LoadOne(tx: TxInput) returns (r: Result<Loaded, Error>, ghost rec: Option<ParsedTx>)
      modifies tx.Objects()
      ensures Settles(config, tx, rec, old(InitialState(config, tx)), r)
      ensures !Pipeline.Reuses(config, tx) ==> unchanged(tx.Objects()) && (rec.Some? ==> fresh(rec.value))
      ensures rec.Some? ==> Pipeline.LoadRecord(config, rec.value, old(InitialState(config, tx))).state == rec.value.State()
    {
      var parsedResult;
      parsedResult, rec := ParseTx(tx);
      if parsedResult.Failure? {
        return Failure(WithProgress(parsedResult.error, None)), rec;
      }
      var parsed := parsedResult.value;
      var cached := if parsed.info.txType == PublicTx then parsed.data else parsed.encryptedData;
      var fetched := if cached.Some? then Success(cached.value) else Pipeline.Fetch(config, parsed.key);
      if fetched.Failure? {
        return Failure(WithProgress(fetched.error, Some(parsed))), rec;
      }
      var data := fetched.value;
      if parsed.info.txType == PublicTx {
        parsed.data := Some(data);
        return Success(Resolved(parsed)), rec;
      }
      parsed.encryptedPermission := Some(data);
      var shared := ProcessSharedFile(parsed, data, parsed.sharedKey);
      r := if shared.Failure? then Failure(WithProgress(shared.error, Some(parsed))) else shared;
    }

    /**
     * `loadOne(txs[i])` inside a batch: besides what `LoadOne` promises, no caller record of
     * the batch that fails validation changes, even one that appears again elsewhere, and,
     * when no record appears twice, no other input's record changes.
     */
    method LoadKeeping(txs: seq<TxInput>, i: nat) returns (r: Result<Loaded, Error>, ghost rec: Option<ParsedTx>)
      requires i < |txs|
      modifies txs[i].Objects()
      ensures Settles(config, txs[i], rec, old(InitialState(config, txs[i])), r)
      ensures !Pipeline.Reuses(config, txs[i]) ==> rec.Some? ==> fresh(rec.value)
      ensures rec.Some? ==> Pipeline.LoadRecord(config, rec.value, old(InitialState(config, txs[i]))).state == rec.value.State()
      ensures forall k :: 0 <= k < |txs| && txs[k].Record? && !Pipeline.Reuses(config, txs[k]) ==>
        txs[k].rec.State() == old(txs[k].rec.State())
      ensures DistinctRecords(txs) ==> forall k :: 0 <= k < |txs| && k != i && txs[k].Record? ==>
        txs[k].rec.State() == old(txs[k].rec.State())
    {
      r, rec := LoadOne(txs[i]);
    }

    /**
     * `loadMany(txs)`: one settled outcome per transaction, in input order. When no record
     * appears twice, each outcome and each record's final state are those of its own
     * transaction loaded alone from the record's state before the call.
     */
    method LoadMany(txs: seq<TxInput>) returns (rs: seq<Result<Loaded, Error>>, ghost recs: seq<Option<ParsedTx>>)
      modifies Many(txs).Objects()
      ensures |rs| == |txs| && |recs| == |txs|
      ensures DistinctRecords(txs) ==> forall i :: 0 <= i < |txs| ==>
        Settles(config, txs[i], recs[i], old(InitialState(config, txs[i])), rs[i])
      ensures DistinctRecords(txs) ==> forall i :: 0 <= i < |txs| && recs[i].Some? ==>
        recs[i].value.State() == Pipeline.LoadRecord(config, recs[i].value, old(InitialState(config, txs[i]))).state
      ensures DistinctRecords(txs) ==> rs == Batch.Settle(config, Batch.Jobs(recs, old(InitialStates(config, txs))))
      ensures forall i :: 0 <= i < |txs| && txs[i].Record? && !Pipeline.Reuses(config, txs[i]) ==>
        txs[i].rec.State() == old(txs[i].rec.State())
    {
      rs, recs := [], [];
      var i := 0;
      while i < |txs|
        invariant 0 <= i <= |txs| && |rs| == i && |recs| == i
        invariant forall k :: 0 <= k < i && recs[k].Some? && !Pipeline.Reuses(config, txs[k]) ==> fresh(recs[k].value)
        invariant forall k :: 0 <= k < i && Pipeline.Reuses(config, txs[k]) ==> recs[k] == Some(txs[k].rec)
        invariant forall k :: 0 <= k < |txs| && txs[k].Record? && !Pipeline.Reuses(config, txs[k]) ==>
          txs[k].rec.State() == old(txs[k].rec.State())
        invariant DistinctRecords(txs) ==> forall k :: i <= k < |txs| && txs[k].Record? ==>
          txs[k].rec.State() == old(txs[k].rec.State())
        invariant DistinctRecords(txs) ==> forall k :: 0 <= k < i ==>
          Settles(config, txs[k], recs[k], old(InitialState(config, txs[k])), rs[k])
        invariant DistinctRecords(txs) ==> forall k :: 0 <= k < i && recs[k].Some? ==>
          recs[k].value.State() == Pipeline.LoadRecord(config, recs[k].value, old(InitialState(config, txs[k]))).state
      {
        var r;
        ghost var rec;
        r, rec := LoadKeeping(txs, i);
        rs, recs := rs + [r], recs + [rec];
        i := i + 1;
      }
      ghost var jobs := Batch.Jobs(recs, old(InitialStates(config, txs)));
      Batch.SettleInOrder(config, jobs);
    }

    /** `load(txs)`: a list goes to `loadMany`, anything else to `loadOne`. */
    method Load(input: LoadInput) returns (out: LoadOutput, ghost recs: seq<Option<ParsedTx>>)
      modifies input.Objects()
      ensures input.Many? ==> out.Settled? && |out.results| == |input.txs| && |recs| == |input.txs|
      ensures input.Many? && DistinctRecords(input.txs) ==> forall i :: 0 <= i < |input.txs| ==>
        Settles(config, input.txs[i], recs[i], old(InitialState(config, input.txs[i])), out.results[i])
      ensures input.Many? && DistinctRecords(input.txs) ==>
        out.results == Batch.Settle(config, Batch.Jobs(recs, old(InitialStates(config, input.txs))))
      ensures input.Many? && DistinctRecords(input.txs) ==> forall i :: 0 <= i < |input.txs| && recs[i].Some? ==>
        recs[i].value.State() == Pipeline.LoadRecord(config, recs[i].value, old(InitialState(config, input.txs[i]))).state
      ensures input.Many? ==> forall i :: 0 <= i < |input.txs| && input.txs[i].Record? && !Pipeline.Reuses(config, input.txs[i]) ==>
        input.txs[i].rec.State() == old(input.txs[i].rec.State())
      ensures input.One? ==> out.Single? && |recs| == 1
      ensures input.One? ==> Settles(config, input.tx, recs[0], old(InitialState(config, input.tx)), out.result)
      ensures input.One? && recs[0].Some? ==>
        recs[0].value.State() == Pipeline.LoadRecord(config, recs[0].value, old(InitialState(config, input.tx))).state
      ensures input.One? && !Pipeline.Reuses(config, input.tx) ==> unchanged(input.tx.Objects())
    {
      match input
      case Many(txs) =>
        var rs;
        rs, recs := LoadMany(txs);
        out := Settled(rs);
      case One(tx) =>
        var r;
        ghost var rec;
        r, rec := LoadOne(tx);
        out, recs := Single(r), [rec];
    }
  }
}
