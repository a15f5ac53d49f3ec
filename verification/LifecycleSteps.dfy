/** What each event does to a run, with the statuses and error codes written out. */
module LifecycleSteps {
  import opened Common
  import opened Receipts
  import opened Lifecycle
  import opened LifecycleProperties
  import Fees

  /** The run is over, with this status and this error. */
  ghost predicate FailedWith(s: State, status: Status, code: ErrorCode) {
    s.run.status == status && s.run.error == Some(code) && s.run.result.None? && s.run.hasRun
  }

  lemma CallMeans(s: State)
    requires Inv(s)
    ensures Next(s, Call) == if s.run.phase.NotStarted? then s.(run := Fresh(CheckingFees)) else s
  {
    assert s.run.phase.NotStarted? ==> s.run == Fresh(NotStarted);
  }

  /** Fees that are not covered fail the run before it is sent, one that cannot be composed fails after it was
      called unapproved. */
  lemma FeesMean(s: State, answer: FeesAnswer)
    requires Inv(s) && s.run.phase.CheckingFees?
    ensures var t := Next(s, FeesAnswered(answer));
            match answer
            case Covered => t.signer.Asked? && t.settled.Open? && !t.run.hasRun && t.run.history == [Idle, Unapproved]
            case CoveredButUnsendable =>
              t.signer.NotAsked? && FailedWith(t, Failed, Foreign) && t.run.history == [Idle, Unapproved, Failed]
            case FeesUnavailable => t.signer.NotAsked? && FailedWith(t, Failed, Foreign) && t.run.history == [Idle, Failed]
            case NotCovered(fault) =>
              && t.signer.NotAsked? && t.run.history == [Idle, Failed]
              && FailedWith(t, Failed, if fault.BalanceTooSmall? then InsufficientBalance else UnmetPrerequisite)
  {
    assert s.run == Fresh(CheckingFees) && s.signer.NotAsked? && s.settled.Open?;
  }

  /** A refusal by the user rejects the run, any other error of the signer fails it. */
  lemma RefusalMeans(s: State, cancelled: bool)
    requires Inv(s) && s.signer.Asked? && s.settled.Open?
    ensures var t := Next(s, Refuse(cancelled));
            && t.signer.Refused? && t.run.txHash.None?
            && if cancelled then FailedWith(t, Rejected, TransactionRejectedByUser) && t.run.history == [Idle, Unapproved, Rejected]
               else FailedWith(t, Failed, UnexpectedError) && t.run.history == [Idle, Unapproved, Failed]
  {
    assert s.run.phase.Submitted? && s.run.history == [Idle, Unapproved];
  }

  /** The approval brings the hash and the status Running; what follows then is up to the completing receipts. */
  lemma ApprovalMeans(s: State, hash: string, works: bool)
    requires Inv(s) && s.signer.Asked?
    ensures var t := Next(s, Approve(hash, works));
            && t.run.txHash == Some(hash) && t.signer == Approved(works)
            && s.run.history + [Running] <= t.run.history
            && (s.finishers == [] ==> t.run.status.Running? && t.settled == s.settled)
  {
  }

  /** A receipt of a run that listens: an in-block one starts its lookup, a failed extrinsic and a finalized block
      wait for the newest one, an error aborts. */
  lemma ReceiptMeans(s: State, r: Receipt)
    requires Inv(s) && Listening(s)
    ensures var t, n := Next(s, Arrive(r)), |s.blocks.lookups|;
            match r.status
            case InProgress => t == s
            case InBlock(hash) =>
              var failed := exists e :: e in r.events && e.kind == ExtrinsicFailed;
              && t.blocks == s.blocks.(lookups := s.blocks.lookups + [Lookup(hash, r.txIndex, Waiting)])
              && t.finishers == (if failed then s.finishers + [Finisher(Revert, n + 1)] else s.finishers)
              && t.unsubscribing == (s.unsubscribing || failed)
            case Finalized(_) =>
              t.blocks == s.blocks && t.finishers == s.finishers + [Finisher(Deliver(r), n)] && t.unsubscribing
            case Errored => t.blocks == s.blocks && t.finishers == s.finishers && t.unsubscribing
  {
    EmittedExactly(r, ExtrinsicFailed);
  }

  lemma ErrorReceiptMeans(s: State, r: Receipt)
    requires Inv(s) && Listening(s) && s.settled.Open? && r.status.Errored?
    ensures var t := Next(s, Arrive(r));
            t.settled == Thrown(TransactionAborted) && FailedWith(t, Aborted, TransactionAborted)
  {
    assert s.run.phase.Submitted?;
  }

  // ---------------------------------------------------------------- the completing receipts

  /** What an open run comes to when the promise chain with this verdict goes on: a failed extrinsic and an
      interrupted batch are reverted, anything else resolves. */
  ghost predicate DecidedBy(t: State, verdict: Verdict) {
    match verdict
    case Revert => t.settled == Thrown(TransactionReverted) && FailedWith(t, Failed, TransactionReverted)
    case Deliver(r) =>
      if t.batch && exists e :: e in r.events && e.kind == BatchInterrupted
      then t.settled == Thrown(TransactionReverted) && FailedWith(t, Failed, TransactionReverted)
      else t.settled == Resolved(r) && t.run.receipt == Some(r) && t.run.phase.Resolving? && t.run.status.Running?
  }

  /** The lookup the chain waits for has been answered, or there was none. */
  ghost predicate Answered(s: State, k: nat)
    requires FinishersFit(s.finishers, s.blocks.lookups) && k < |s.finishers|
  {
    s.finishers[k].started == 0 || s.blocks.lookups[s.finishers[k].started - 1].answer.Fetched?
  }

  /** The chains whose lookups have not been answered wait, if none is broken. */
  ghost predicate NoneBroken(s: State)
    requires FinishersFit(s.finishers, s.blocks.lookups)
  {
    forall j :: 0 <= j < |s.finishers| && s.finishers[j].started > 0 ==>
      !s.blocks.lookups[s.finishers[j].started - 1].answer.Broken?
  }

  lemma FlushMeans(s: State, k: nat)
    requires FinishersFit(s.finishers, s.blocks.lookups) && NoneBroken(s) && k < |s.finishers|
    requires s.settled.Open? && s.signer == Approved(true) && s.run.status.Running? && s.run.result.None?
    requires Answered(s, k) && forall j: nat :: j < k ==> !Answered(s, j)
    ensures DecidedBy(Flush(s), s.finishers[k].verdict)
  {
    forall j: nat | j < k ensures Readied(s.signer, s.blocks.lookups, s.finishers[j].started).Wait? {
      assert !Answered(s, j);
    }
    assert Readied(s.signer, s.blocks.lookups, s.finishers[k].started).Go?;
    var r := FirstReady(s.signer, s.blocks.lookups, s.finishers, 0);
    assert r == Some(k);
    if s.finishers[k].verdict.Deliver? {
      EmittedExactly(s.finishers[k].verdict.receipt, BatchInterrupted);
    }
  }

  lemma OpenIsWaiting(s: State)
    requires Inv(s) && s.settled.Open? && s.run.phase.Submitted?
    ensures s.run.result.None? && NoneBroken(s)
    ensures s.signer.Approved? && Recorded(s.run) ==> s.run.status.Running?
    ensures s.signer == Approved(true) ==> forall k: nat :: k < |s.finishers| ==> !Answered(s, k)
  {
    forall k: nat | k < |s.finishers|
      ensures s.finishers[k].started > 0 ==> !s.blocks.lookups[s.finishers[k].started - 1].answer.Broken?
      ensures s.signer == Approved(true) ==> !Answered(s, k)
    {
      assert Readied(s.signer, s.blocks.lookups, s.finishers[k].started).Wait?;
    }
  }

  lemma SameAnswers(s: State, t: State, k: nat)
    requires FinishersFit(s.finishers, s.blocks.lookups) && t.finishers == s.finishers && t.blocks == s.blocks
    requires NoneBroken(s) && k < |s.finishers| && Answered(s, k) && forall j: nat :: j < k ==> !Answered(s, j)
    ensures NoneBroken(t) && Answered(t, k) && forall j: nat :: j < k ==> !Answered(t, j)
  {
    forall j: nat | j < k ensures !Answered(t, j) {
      assert !Answered(s, j);
    }
  }

  /** The approval lets the first chain decide whose lookup has been answered by then. */
  lemma ApprovalDecides(s: State, hash: string, k: nat)
    requires Inv(s) && s.settled.Open? && s.signer.Asked? && k < |s.finishers|
    requires Answered(s, k) && forall j: nat :: j < k ==> !Answered(s, j)
    ensures DecidedBy(Next(s, Approve(hash, true)), s.finishers[k].verdict)
  {
    OpenIsWaiting(s);
    SameAnswers(s, Approving(s, hash, true), k);
    FlushMeans(Approving(s, hash, true), k);
  }

  /** The answer to a lookup lets the first chain decide that waits for it. */
  lemma BlockDecides(s: State, i: nat, number: nat, k: nat)
    requires Inv(s) && Recorded(s.run) && s.settled.Open? && s.signer == Approved(true) && Pending(s.blocks, i)
    requires k < |s.finishers| && s.finishers[k].started == i + 1
    requires forall j: nat :: j < k ==> s.finishers[j].started != i + 1
    ensures DecidedBy(Next(s, FetchBlock(i, number)), s.finishers[k].verdict)
  {
    OpenIsWaiting(s);
    var t := s.(blocks := Fetch(s.blocks, i, number));
    forall j: nat | j < k ensures !Answered(t, j) {
      assert !Answered(s, j);
    }
    FlushMeans(t, k);
  }

  /** A lookup that fails breaks the run if some chain waits for it. */
  lemma LostBlockMeans(s: State, i: nat)
    requires Inv(s) && Recorded(s.run) && s.settled.Open? && Pending(s.blocks, i)
    ensures var t := Next(s, LoseBlock(i));
            if exists k :: 0 <= k < |s.finishers| && s.finishers[k].started == i + 1
            then t.settled == Thrown(Foreign) && FailedWith(t, Failed, Foreign)
            else t.settled.Open? && t.run == s.run
  {
    var t := s.(blocks := Lose(s.blocks, i));
    forall k | 0 <= k < |s.finishers|
      ensures Readied(t.signer, t.blocks.lookups, t.finishers[k].started)
           == if s.finishers[k].started == i + 1 then Break else Wait
    {
      assert Readied(s.signer, s.blocks.lookups, s.finishers[k].started).Wait?;
    }
    assert s.run.result.None?;
  }

  // ---------------------------------------------------------------- the end

  /** The value a resolver ends with is the result; the code of the error it throws chooses the status. */
  lemma ValueMeans(s: State, v: Value, code: ErrorCode)
    requires Inv(s) && s.run.phase.Resolving?
    ensures var t := Next(s, ValueReady(v));
            t.run.status.Succeeded? && t.run.error.None? && t.run.result == Some(v) && t.run.hasRun
            && t.run.history == [Idle, Unapproved, Running, Succeeded]
    ensures var t := Next(s, ValueThrew(code));
            FailedWith(t, match code
                          case TransactionAborted => Aborted
                          case TransactionRejectedByUser => Rejected
                          case _ => Failed, code)
  {
    assert s.settled.Resolved? && s.run.history == [Idle, Unapproved, Running];
  }
}
