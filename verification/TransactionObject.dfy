/** The transaction object itself. Its methods are the pieces of `run` between two suspensions and the
    callbacks that wake it up; each performs one step of `Lifecycle.Next` on the fields. */
module TransactionObject {
  import opened Common
  import opened Receipts
  import opened Lifecycle
  import opened LifecycleProperties

  class Transaction {
    const batch: bool

    var status: Status
    var error: Option<ErrorCode>
    var receipt: Option<Receipt>
    var txHash: Option<string>
    var txIndex: Option<nat>
    var blockHash: Option<string>
    var blockNumber: Option<nat>
    var hasRun: bool
    var result: Option<Value>

    // the StatusChange events the emitter has sent
    var emitted: seq<Status>

    // what the suspended calls and callbacks remember
    var phase: Phase
    var signer: Signer
    var lookups: seq<Lookup>
    var finishers: seq<Finisher>
    var unsubscribing: bool
    var settled: Settlement

    ghost var history: seq<Status>
    ghost var completed: seq<nat>

    ghost function RunView(): Run
      reads this
    {
      Run(phase, status, emitted, error, receipt, txHash, hasRun, result, history)
    }

    ghost function View(): State
      reads this
    {
      State(batch, RunView(),
            Blocks(lookups, blockHash, blockNumber, txIndex, completed), signer, finishers, unsubscribing, settled)
    }

    ghost predicate Valid()
      reads this
    {
      Inv(View()) && Recorded(RunView())
    }

    constructor (batch: bool)
      ensures View() == Initial(batch) && Valid()
    {
      this.batch := batch;
      status, error, receipt, txHash, txIndex := Idle, None, None, None, None;
      blockHash, blockNumber, hasRun, result, emitted := None, None, false, None, [];
      phase, signer, lookups, finishers, unsubscribing, settled := NotStarted, NotAsked, [], [], false, Open;
      history, completed := [Idle], [];
    }

    method UpdateStatus(newStatus: Status)
      modifies this
      ensures View() == old(View()).(run := WithStatus(old(View()).run, newStatus))
    {
      status := newStatus;
      history := history + [newStatus];
      match newStatus {
        case Idle =>
        case Unapproved | Running | Succeeded => emitted := emitted + [newStatus];
        case Rejected | Aborted | Failed => emitted := emitted + [newStatus];
      }
    }

    /** The status an error leads to. */
    method ReportError(code: ErrorCode)
      modifies this
      ensures View() == old(View()).(run := WithStatus(old(View()).run, StatusFor(code)))
    {
      match code {
        case TransactionAborted => UpdateStatus(Aborted);
        case TransactionRejectedByUser => UpdateStatus(Rejected);
        case _ => UpdateStatus(Failed);
      }
    }

    /** The `catch` and `finally` blocks of `run`. */
    method Fail(code: ErrorCode)
      modifies this
      ensures View() == old(View()).(run := Catch(old(View()).run, code))
    {
      error := Some(code);
      ReportError(code);
      hasRun := true;
      phase := Done;
    }

    method RejectPromise(code: ErrorCode)
      modifies this
      ensures View() == Reject(old(View()), code)
    {
      if settled.Open? {
        settled := Thrown(code);
        Fail(code);
      }
    }

    method ResolvePromise(r: Receipt)
      modifies this
      ensures View() == Resolve(old(View()), r)
    {
      if settled.Open? {
        settled := Resolved(r);
        receipt := Some(r);
        phase := Resolving;
      }
    }

    method HandleExtrinsicFailure()
      modifies this
      ensures View() == Reject(old(View()), TransactionReverted)
      ensures old(settled).Open? ==> status == Failed && error == Some(TransactionReverted)
    {
      RejectPromise(TransactionReverted);
    }

    method HandleExtrinsicSuccess(r: Receipt)
      modifies this
      ensures View() == Judge(old(View()), Deliver(r))
    {
      if batch && Emitted(r, BatchInterrupted) {
        HandleExtrinsicFailure();
      } else {
        ResolvePromise(r);
      }
    }

    /** Lets the promise chains go on that have nothing left to wait for. */
    method Finish()
      requires FinishersFit(finishers, lookups)
      modifies this
      ensures View() == Flush(old(View()))
    {
      var ready := FirstReady(signer, lookups, finishers, 0);
      if ready.Some? {
        var f := finishers[ready.value];
        if Readied(signer, lookups, f.started).Go? {
          match f.verdict {
            case Revert => HandleExtrinsicFailure();
            case Deliver(r) => HandleExtrinsicSuccess(r);
          }
        } else {
          RejectPromise(Foreign);
        }
      }
    }

    // ---------------------------------------------------------------- run and its continuations

    /** A transaction that has run throws, and nothing changes. */
    method Start() returns (refused: Option<ErrorCode>)
      requires FinishersFit(finishers, lookups)
      modifies this
      ensures View() == Next(old(View()), Call)
      ensures refused == if old(hasRun) then Some(General) else None
    {
      if hasRun {
        return Some(General);
      }
      if phase == NotStarted {
        phase := CheckingFees;
      }
      refused := None;
    }

    method FeesCameBack(answer: FeesAnswer)
      requires FinishersFit(finishers, lookups) && phase == CheckingFees
      modifies this
      ensures View() == OnFees(old(View()), answer)
    {
      match answer {
        case NotCovered(fault) => Fail(CodeFor(fault));
        case FeesUnavailable => Fail(Foreign);
        case CoveredButUnsendable =>
          phase := Submitted;
          UpdateStatus(Unapproved);
          RejectPromise(Foreign);
        case Covered =>
          phase := Submitted;
          UpdateStatus(Unapproved);
          signer := Asked;
      }
    }

    method SignerApproved(hash: string, unsubWorks: bool)
      requires FinishersFit(finishers, lookups) && signer.Asked?
      modifies this
      ensures View() == Flush(Approving(old(View()), hash, unsubWorks))
    {
      txHash := Some(hash);
      UpdateStatus(Running);
      signer := Approved(unsubWorks);
      Finish();
    }

    method SignerRefused(cancelled: bool)
      requires signer.Asked?
      modifies this
      ensures View() == OnRefusal(old(View()), cancelled)
      ensures old(settled).Open? ==>
                && status == (if cancelled then Rejected else Failed)
                && error == Some(if cancelled then TransactionRejectedByUser else UnexpectedError)
    {
      signer := Refused;
      RejectPromise(if cancelled then TransactionRejectedByUser else UnexpectedError);
    }

    /** The promise chain of a completing receipt: it unsubscribes, and waits for the newest lookup. */
    method FinishLater(verdict: Verdict)
      requires FinishersFit(finishers, lookups)
      modifies this
      ensures View() == AwaitEnd(old(View()), verdict)
    {
      unsubscribing := true;
      finishers := finishers + [Finisher(verdict, |lookups|)];
      Finish();
    }

    /** The callback of `signAndSend`. */
    method ReceiptArrived(r: Receipt)
      requires FinishersFit(finishers, lookups)
      modifies this
      ensures View() == OnReceipt(old(View()), r)
    {
      match r.status {
        case InProgress =>
        case InBlock(hash) =>
          lookups := lookups + [Lookup(hash, r.txIndex, Waiting)];
          if Emitted(r, ExtrinsicFailed) {
            FinishLater(Revert);
          }
        case Finalized(_) => FinishLater(Deliver(r));
        case Errored =>
          unsubscribing := true;
          RejectPromise(TransactionAborted);
      }
    }

    /** The answer to lookup `i`: its receipt's data are now the object's. */
    method SetBlockData(i: nat, number: nat)
      requires Pending(View().blocks, i)
      modifies this
      ensures View() == old(View()).(blocks := Fetch(old(View()).blocks, i, number))
    {
      blockHash := Some(lookups[i].hash);
      blockNumber := Some(number);
      txIndex := Some(lookups[i].txIndex);
      lookups := lookups[i := lookups[i].(answer := Fetched(number))];
      completed := completed + [i];
    }

    method BlockFetched(i: nat, number: nat)
      requires FinishersFit(finishers, lookups) && Pending(View().blocks, i)
      modifies this
      ensures View() == Flush(old(View()).(blocks := Fetch(old(View()).blocks, i, number)))
    {
      SetBlockData(i, number);
      Finish();
    }

    method BlockLost(i: nat)
      requires FinishersFit(finishers, lookups) && Pending(View().blocks, i)
      modifies this
      ensures View() == Flush(old(View()).(blocks := Lose(old(View()).blocks, i)))
    {
      lookups := lookups[i := lookups[i].(answer := Broken)];
      Finish();
    }

    method ResultReady(v: Value)
      requires phase.Resolving?
      modifies this
      ensures View() == old(View()).(run := Succeed(old(View()).run, v))
    {
      result := Some(v);
      UpdateStatus(Succeeded);
      hasRun := true;
      phase := Done;
    }

    /** Performs one step of the outside world, or none if it cannot happen now. A call of a transaction that has
        run throws. */
    method Handle(e: Step) returns (refused: Option<ErrorCode>)
      requires Valid()
      modifies this
      ensures View() == Next(old(View()), e) && Valid()
      ensures refused == if e.Call? && old(hasRun) then Some(General) else None
    {
      ghost var before := View();
      refused := Dispatch(e);
      assert Valid() by {
        NextInv(before, e);
        RecordedNext(before, e);
      }
    }

    method Dispatch(e: Step) returns (refused: Option<ErrorCode>)
      requires FinishersFit(finishers, lookups)
      modifies this
      ensures View() == Next(old(View()), e)
      ensures refused == if e.Call? && old(hasRun) then Some(General) else None
    {
      refused := None;
      match e {
        case Call => refused := Start();
        case FeesAnswered(answer) => if phase.CheckingFees? { FeesCameBack(answer); }
        case Approve(hash, works) => if signer.Asked? { SignerApproved(hash, works); }
        case Refuse(cancelled) => if signer.Asked? { SignerRefused(cancelled); }
        case Arrive(r) =>
          if signer.Asked? || (signer.Approved? && !(unsubscribing && signer.unsubWorks)) { ReceiptArrived(r); }
        case FetchBlock(i, number) => if i < |lookups| && lookups[i].answer.Waiting? { BlockFetched(i, number); }
        case LoseBlock(i) => if i < |lookups| && lookups[i].answer.Waiting? { BlockLost(i); }
        case ValueReady(v) => if phase.Resolving? { ResultReady(v); }
        case ValueThrew(code) => if phase.Resolving? { Fail(code); }
      }
    }

    /** The `result` property can be read exactly when the run is over without an error, and then there is one.
        It looks at the status alone. */
    method ReadResult() returns (r: Result<Value, ErrorCode>)
      requires Valid()
      ensures r.Ok? <==> hasRun && error.None?
      ensures r.Ok? ==> result == Some(r.value)
      ensures r.Err? ==> r.error == General
    {
      ChosenIfInv(View());
      if status == Succeeded {
        r := Ok(result.value);
      } else {
        assert hasRun ==> error.Some? by {
          if hasRun {
            OverIsTerminal(View());
          }
        }
        r := Err(General);
      }
    }
  }
}
