/** Transaction orchestration (`with_transaction`), its three-way error classification
    (`TxOrSourceError`), and the fake connectivity the tests run it against
    (src/external_connections.rs). Connection and transaction handles are opaque values;
    the lifetimes that keep a handle from outliving its source are not modelled. */
module ExternalConnections {
  import opened Wrappers

  /** Exactly one stage went wrong: the unit of work (`Source`), beginning the
      transaction (`TxBegin`), or committing it after the work succeeded (`TxCommit`,
      which keeps the work's value). */
  datatype TxOrSourceError<V, E, B, C> =
    | Source(sourceErr: E)
    | TxBegin(beginErr: B)
    | TxCommit(successfulResult: V, transactionErr: C)

  /** A call `with_transaction` makes: begin, run the unit of work on a handle, commit a handle. */
  datatype TxCall<H> = StartTransaction | RunWork(handle: H) | CommitTransaction(handle: H)

  /** How many times the unit of work was run. */
  function WorkRuns<H>(calls: seq<TxCall<H>>): nat {
    if calls == [] then 0
    else WorkRuns(calls[..|calls| - 1]) + (if calls[|calls| - 1].RunWork? then 1 else 0)
  }

  /** How many times a commit was issued. */
  function Commits<H>(calls: seq<TxCall<H>>): nat {
    if calls == [] then 0
    else Commits(calls[..|calls| - 1]) + (if calls[|calls| - 1].CommitTransaction? then 1 else 0)
  }

  /** `with_transaction`. `begin` is what `start_transaction` gives, `work` the
      caller's unit of work and `commit` what committing a handle gives; `calls`
      lists the calls made, in order. */
  method WithTransaction<H, V, E, B, C>(begin: Result<H, B>, work: H -> Result<V, E>, commit: H -> Result<(), C>)
    returns (r: Result<V, TxOrSourceError<V, E, B, C>>, calls: seq<TxCall<H>>)
    // the unit of work runs once exactly when the transaction began, and on that handle
    ensures WorkRuns(calls) == (if begin.Ok? then 1 else 0)
    ensures forall k :: 0 <= k < |calls| && calls[k].RunWork? ==> begin.Ok? && calls[k].handle == begin.value
    // a commit is issued exactly when the unit of work succeeded, and at most once
    ensures Commits(calls) == (if begin.Ok? && work(begin.value).Ok? then 1 else 0)
    // the classification
    ensures begin.Err? ==> r == Err(TxBegin(begin.error)) && calls == [StartTransaction]
    ensures begin.Ok? && work(begin.value).Err? ==>
      r == Err(Source(work(begin.value).error)) && calls == [StartTransaction, RunWork(begin.value)]
    ensures begin.Ok? && work(begin.value).Ok? ==>
      calls == [StartTransaction, RunWork(begin.value), CommitTransaction(begin.value)] &&
      r == (if commit(begin.value).Ok? then Ok(work(begin.value).value)
            else Err(TxCommit(work(begin.value).value, commit(begin.value).error)))
  {
    calls := [StartTransaction];
    if begin.Err? {
      r := Err(TxBegin(begin.error));
      return;
    }
    var txHandle := begin.value;
    var retVal := work(txHandle);
    calls := calls + [RunWork(txHandle)];
    assert WorkRuns(calls) == 1 && Commits(calls) == 0 by {
      assert calls[..1] == [StartTransaction];
    }
    if retVal.Ok? {
      var commitResult := commit(txHandle);
      ghost var before := calls;
      calls := calls + [CommitTransaction(txHandle)];
      assert calls[..2] == before;
      if commitResult.Err? {
        r := Err(TxCommit(retVal.value, commitResult.error));
        return;
      }
    }
    match retVal {
      case Ok(value) => r := Ok(value);
      case Err(error) => r := Err(Source(error));
    }
  }

  /** Stands for Rust's `Infallible`: the fake's operations never produce it. */
  datatype Infallible = Infallible

  /** The fake's panic. */
  datatype FakePanic = CommitOutsideTransaction

  /** The handle `database_cxn` hands out in tests. */
  datatype MockHandle = MockHandle

  /** The `Arc<AtomicBool>` a fake source shares with every transaction it starts. */
  class CommitFlag {
    var value: bool

    constructor ()
      ensures !value
    {
      value := false;
    }
  }

  /** `test_util::FakeExternalConnectivity`. */
  class FakeExternalConnectivity {
    const isTransacting: bool
    const downstreamTransactionCommitted: CommitFlag

    /** `new`: not transacting, with a flag of its own that reads false. */
    constructor ()
      ensures !isTransacting && fresh(downstreamTransactionCommitted) && !DidTransactionCommit()
    {
      isTransacting := false;
      downstreamTransactionCommitted := new CommitFlag();
    }

    /** The value `start_transaction` builds: transacting, sharing `flag`. */
    constructor Transacting(flag: CommitFlag)
      ensures isTransacting && downstreamTransactionCommitted == flag
    {
      isTransacting := true;
      downstreamTransactionCommitted := flag;
    }

    /** `is_transacting`: whether this connectivity is a started transaction. */
    function IsTransacting(): (r: bool)
      ensures r <==> isTransacting
    {
      isTransacting
    }

    /** `did_transaction_commit`: whether the flag shared with every transaction
        started from this source has been set. */
    function DidTransactionCommit(): (r: bool)
      reads downstreamTransactionCommitted
      ensures r <==> downstreamTransactionCommitted.value
    {
      downstreamTransactionCommitted.value
    }

    /** `database_cxn` never fails. */
    method DatabaseCxn() returns (r: Result<MockHandle, Infallible>)
      ensures r.Ok?
    {
      r := Ok(MockHandle);
    }

    /** `start_transaction` never fails; the source itself is not changed. */
    method StartTransaction() returns (tx: FakeExternalConnectivity)
      ensures fresh(tx) && tx.isTransacting
      ensures tx.downstreamTransactionCommitted == downstreamTransactionCommitted
    {
      tx := new FakeExternalConnectivity.Transacting(downstreamTransactionCommitted);
    }

    /** `commit` panics outside a transaction; inside one it sets the shared flag. */
    method Commit() returns (outcome: Result<(), FakePanic>)
      modifies downstreamTransactionCommitted
      ensures !isTransacting ==> outcome == Err(CommitOutsideTransaction) && unchanged(downstreamTransactionCommitted)
      ensures isTransacting ==> outcome == Ok(()) && DidTransactionCommit()
    {
      if !isTransacting {
        return Err(CommitOutsideTransaction);
      }
      downstreamTransactionCommitted.value := true;
      outcome := Ok(());
    }
  }

  /** `with_transaction` run against the fake, as the tests run it: `tx` is the
      transaction that was started and handed to `work`, and the fake commits exactly
      when `WithTransaction` asks for the commit. A transacting fake's commit succeeds,
      so the commit step is `_ => Ok(())` with `Infallible` as its error type. */
  method WithFakeTransaction<V, E>(source: FakeExternalConnectivity, work: FakeExternalConnectivity -> Result<V, E>)
    returns (r: Result<V, TxOrSourceError<V, E, Infallible, Infallible>>, tx: FakeExternalConnectivity)
    modifies source.downstreamTransactionCommitted
    ensures fresh(tx) && tx.isTransacting
    ensures tx.downstreamTransactionCommitted == source.downstreamTransactionCommitted
    ensures work(tx).Ok? ==> r == Ok(work(tx).value) && source.DidTransactionCommit()
    ensures work(tx).Err? ==> r == Err(Source(work(tx).error)) && unchanged(source.downstreamTransactionCommitted)
  {
    tx := source.StartTransaction();
    var calls;
    r, calls := WithTransaction<FakeExternalConnectivity, V, E, Infallible, Infallible>(Ok(tx), work, _ => Ok(()));
    if CommitTransaction(tx) in calls {
      var _ := tx.Commit();
    }
  }

  datatype SampleErr = SampleErr

  /** The test `commits_on_success`: the result and whether the downstream transaction committed. */
  method CommitsOnSuccess() returns (txResult: Result<(), TxOrSourceError<(), SampleErr, Infallible, Infallible>>, committed: bool)
    ensures txResult.Ok? && committed
  {
    var extCxn := new FakeExternalConnectivity();
    var work: FakeExternalConnectivity -> Result<(), SampleErr> := _ => Ok(());
    var tx;
    txResult, tx := WithFakeTransaction(extCxn, work);
    committed := extCxn.DidTransactionCommit();
  }

  /** The test `does_not_commit_on_failure`: the result and whether the downstream transaction committed. */
  method DoesNotCommitOnFailure() returns (txResult: Result<(), TxOrSourceError<(), SampleErr, Infallible, Infallible>>, committed: bool)
    ensures txResult == Err(Source(SampleErr)) && !committed
  {
    var extCxn := new FakeExternalConnectivity();
    var work: FakeExternalConnectivity -> Result<(), SampleErr> := _ => Err(SampleErr);
    var tx;
    txResult, tx := WithFakeTransaction(extCxn, work);
    committed := extCxn.DidTransactionCommit();
  }

  /** A begin failure never reaches the unit of work; a commit failure keeps the value
      the unit of work produced. */
  method BeginAndCommitFailures()
    returns (beginFailure: Result<int, TxOrSourceError<int, SampleErr, string, string>>, workRuns: nat,
             commitFailure: Result<int, TxOrSourceError<int, SampleErr, string, string>>)
    ensures beginFailure == Err(TxBegin("pool exhausted")) && workRuns == 0
    ensures commitFailure == Err(TxCommit(42, "connection lost"))
  {
    var work: MockHandle -> Result<int, SampleErr> := _ => Ok(42);
    var commitOk: MockHandle -> Result<(), string> := _ => Ok(());
    var commitFails: MockHandle -> Result<(), string> := _ => Err("connection lost");
    var calls;
    beginFailure, calls := WithTransaction(Err("pool exhausted"), work, commitOk);
    workRuns := WorkRuns(calls);
    commitFailure, calls := WithTransaction(Ok(MockHandle), work, commitFails);
  }
}
