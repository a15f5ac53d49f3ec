/** What the life of a transaction object can look like, over every interleaving of outside events. */
module LifecycleProperties {
  import opened Common
  import opened Receipts
  import opened Lifecycle
  import Fees

  // ---------------------------------------------------------------- statuses and their emission

  ghost predicate Recorded(r: Run) {
    && r.history != [] && r.history[|r.history| - 1] == r.status
    && r.history == [Idle] + r.emitted
  }

  lemma RecordedStatus(r: Run, status: Status)
    requires Recorded(r) && !status.Idle?
    ensures Recorded(WithStatus(r, status))
  {
    assert [Idle] + (r.emitted + [status]) == [Idle] + r.emitted + [status];
  }

  lemma RecordedCatch(r: Run, code: ErrorCode)
    requires Recorded(r)
    ensures Recorded(Catch(r, code))
  {
    RecordedStatus(r.(error := Some(code)), StatusFor(code));
  }

  lemma RecordedSettled(s: State, t: State)
    requires Recorded(s.run) && SettledRun(s, t)
    ensures Recorded(t.run)
  {
    if s.settled.Open? && t.settled.Thrown? {
      RecordedCatch(s.run, t.settled.code);
    }
  }

  lemma RecordedNext(s: State, e: Step)
    requires Inv(s) && Recorded(s.run)
    ensures Recorded(Next(s, e).run)
  {
    match e
    case Call =>
    case FeesAnswered(answer) => RecordedFees(s, answer);
    case Approve(hash, works) => RecordedApproval(s, hash, works);
    case ValueReady(v) => RecordedStatus(s.run.(result := Some(v)), Succeeded);
    case ValueThrew(code) => RecordedCatch(s.run, code);
    case _ =>
      OnlySettles(s, e);
      RecordedSettled(s, Next(s, e));
  }

  /** What a refusal, a receipt or a block does to the run, it does by deciding the promise. */
  lemma OnlySettles(s: State, e: Step)
    requires Inv(s) && (e.Refuse? || e.Arrive? || e.FetchBlock? || e.LoseBlock?)
    ensures SettledRun(s, Next(s, e))
  {
  }

  lemma RecordedApproval(s: State, hash: string, works: bool)
    requires Inv(s) && Recorded(s.run)
    ensures Recorded(Next(s, Approve(hash, works)).run)
  {
    if s.signer.Asked? {
      RecordedStatus(s.run.(txHash := Some(hash)), Running);
      RecordedSettled(Approving(s, hash, works), Flush(Approving(s, hash, works)));
    }
  }

  lemma RecordedFees(s: State, answer: FeesAnswer)
    requires Inv(s) && Recorded(s.run)
    ensures Recorded(Next(s, FeesAnswered(answer)).run)
  {
    match answer
    case NotCovered(fault) => RecordedCatch(s.run, CodeFor(fault));
    case FeesUnavailable => RecordedCatch(s.run, Foreign);
    case CoveredButUnsendable =>
      var sent := WithStatus(s.run.(phase := Submitted), Unapproved);
      RecordedStatus(s.run.(phase := Submitted), Unapproved);
      RecordedCatch(sent, Foreign);
    case Covered => RecordedStatus(s.run.(phase := Submitted), Unapproved);
  }

  /** The `StatusChange` events are the values given to `status`, in the same order and none left out. */
  lemma {:induction false} EmittedIsAssigned(batch: bool, es: seq<Step>)
    ensures Recorded(After(batch, es).run)
    decreases |es|
  {
    if es != [] {
      EmittedIsAssigned(batch, es[..|es| - 1]);
      AfterInv(batch, es[..|es| - 1]);
      RecordedNext(After(batch, es[..|es| - 1]), es[|es| - 1]);
    }
  }

  /** Idle; then Failed, or Unapproved; then Rejected or Failed, or Running; then one terminal status. */
  ghost predicate Ordinary(h: seq<Status>) {
    || h == [Idle]
    || h == [Idle, Failed]
    || h == [Idle, Unapproved]
    || h == [Idle, Unapproved, Rejected]
    || h == [Idle, Unapproved, Failed]
    || h == [Idle, Unapproved, Running]
    || (|h| == 4 && h[..3] == [Idle, Unapproved, Running] && h[3].Terminal())
  }

  /** What only an approval that comes after the error can add. */
  ghost predicate Late(h: seq<Status>) {
    || h == [Idle, Unapproved, Aborted]
    || h == [Idle, Unapproved, Aborted, Running]
    || h == [Idle, Unapproved, Failed, Running]
  }

  /** A terminal status is Succeeded exactly without an error and with a result, and else the one for its error. */
  ghost predicate Chosen(r: Run) {
    r.status.Terminal() ==>
      && (r.status.Succeeded? <==> r.error.None?) && (r.status.Succeeded? <==> r.result.Some?)
      && (r.error == Some(TransactionAborted) ==> r.status.Aborted?)
      && (r.error == Some(TransactionRejectedByUser) ==> r.status.Rejected?)
      && (r.error.Some? && r.error.value != TransactionAborted && r.error.value != TransactionRejectedByUser ==>
            r.status.Failed?)
  }

  lemma ChosenIfInv(s: State)
    requires Inv(s) && Recorded(s.run)
    ensures Chosen(s.run)
  {
    if s.run.status.Terminal() {
      TerminalMeansDoneIn(s.run, s.signer, s.settled);
    }
  }

  lemma TerminalMeansDoneIn(r: Run, signer: Signer, settled: Settlement)
    requires RunFits(r, signer, settled) && Recorded(r) && r.status.Terminal()
    ensures r.phase.Done? && r.hasRun && (settled.Open? ==> signer.NotAsked?)
  {
  }

  /** A run that is over has a terminal status, unless the signer approved after its error. */
  lemma OverIsTerminal(s: State)
    requires Inv(s) && Recorded(s.run) && s.run.hasRun
    ensures s.run.status.Terminal() || (s.run.status.Running? && s.run.error.Some?)
  {
    match s.settled
    case Open =>
    case Resolved(_) =>
    case Thrown(code) =>
  }

  /** Every history there is, with no assumption on the order of events, and how its terminal status is chosen. */
  lemma HistoryOfEveryRun(batch: bool, es: seq<Step>)
    ensures var r := After(batch, es).run; (Ordinary(r.history) || Late(r.history)) && Chosen(r)
  {
    var s := After(batch, es);
    AfterInv(batch, es);
    HistoryShape(s.run, s.signer, s.settled);
    EmittedIsAssigned(batch, es);
    ChosenIfInv(s);
  }

  lemma HistoryShape(r: Run, signer: Signer, settled: Settlement)
    requires RunFits(r, signer, settled)
    ensures Ordinary(r.history) || Late(r.history)
    ensures !Ordinary(r.history) ==> settled.Thrown?
  {
    match settled
    case Open =>
    case Resolved(_) =>
    case Thrown(code) =>
  }

  // ---------------------------------------------------------------- terminal statuses

  /** A terminal status is left in exactly one way: the signer approves after the promise has been rejected. */
  lemma TerminalLeftExactly(s: State, e: Step)
    requires Inv(s) && Recorded(s.run) && s.run.status.Terminal()
    ensures Next(s, e).run.status != s.run.status <==> e.Approve? && s.signer.Asked?
  {
    TerminalMeansDone(s);
  }

  lemma TerminalMeansDone(s: State)
    requires Inv(s) && Recorded(s.run) && s.run.status.Terminal()
    ensures s.run.phase.Done? && s.run.hasRun
    ensures s.settled.Open? ==> s.signer.NotAsked?
  {
    TerminalMeansDoneIn(s.run, s.signer, s.settled);
  }

  /** Success is final, and so is the value that came with it: all that can change are the block lookups still
      under way and the fields they set. */
  lemma SuccessIsFinal(s: State, e: Step)
    requires Inv(s) && Recorded(s.run) && s.run.status.Succeeded?
    ensures s.run.result.Some? && Next(s, e) == s.(blocks := Next(s, e).blocks)
    ensures Next(s, e).blocks != s.blocks ==> (e.FetchBlock? || e.LoseBlock?) && Pending(s.blocks, e.lookup)
  {
    TerminalMeansDone(s);
    assert s.settled.Resolved? && s.signer == Approved(true);
    ResolvedStops(s);
  }

  lemma ResolvedStops(s: State)
    requires Inv(s) && s.settled.Resolved?
    ensures !Listening(s)
  {
    var k :| 0 <= k < |s.finishers| && Decides(s.batch, s.settled, s.blocks.lookups, s.finishers[k]);
  }

  /** No receipt is delivered while the signer has yet to answer. */
  ghost predicate Timely(batch: bool, es: seq<Step>) {
    forall k :: 0 <= k < |es| && es[k].Arrive? ==> !After(batch, es[..k]).signer.Asked?
  }

  ghost predicate TimelyInv(s: State) {
    && (s.signer.Asked? ==> s.settled.Open? && s.finishers == [] && s.blocks.lookups == [])
    && (s.signer == Approved(true) && s.finishers != [] ==>
          |s.finishers| == 1 && s.finishers[0].started == |s.blocks.lookups|)
    && (s.settled.Thrown? && s.signer.Approved? ==> s.run.history == Approvals() + [StatusFor(s.settled.code)])
    && (s.settled.Thrown? && !s.signer.Approved? ==> !s.settled.code.TransactionAborted?)
  }

  lemma TimelyNext(s: State, e: Step)
    requires Inv(s) && TimelyInv(s)
    requires e.Arrive? ==> !s.signer.Asked?
    ensures TimelyInv(Next(s, e))
  {
    match e
    case Call =>
    case FeesAnswered(answer) => TimelyFees(s, answer);
    case Approve(hash, works) => TimelyApproval(s, hash, works);
    case Refuse(cancelled) => TimelyRefusal(s, cancelled);
    case Arrive(r) => TimelyArrival(s, r);
    case FetchBlock(i, n) => TimelyBlock(s, e);
    case LoseBlock(i) => TimelyBlock(s, e);
    case ValueReady(_) => TimelyValue(s, e);
    case ValueThrew(_) => TimelyValue(s, e);
  }

  lemma TimelyValue(s: State, e: Step)
    requires Inv(s) && TimelyInv(s) && (e.ValueReady? || e.ValueThrew?)
    ensures TimelyInv(Next(s, e))
  {
  }

  lemma TimelyBlock(s: State, e: Step)
    requires Inv(s) && TimelyInv(s) && (e.FetchBlock? || e.LoseBlock?)
    ensures TimelyInv(Next(s, e))
  {
    if Pending(s.blocks, e.lookup) {
      assert !s.signer.Asked? && !s.signer.NotAsked?;
      var b := if e.FetchBlock? then Fetch(s.blocks, e.lookup, e.number) else Lose(s.blocks, e.lookup);
      TimelySettled(s, b, Flush(s.(blocks := b)));
    }
  }

  lemma TimelyApproval(s: State, hash: string, works: bool)
    requires Inv(s) && TimelyInv(s)
    ensures TimelyInv(Next(s, Approve(hash, works)))
  {
  }

  lemma TimelyRefusal(s: State, cancelled: bool)
    requires Inv(s) && TimelyInv(s)
    ensures TimelyInv(Next(s, Refuse(cancelled)))
  {
  }

  lemma TimelyFees(s: State, answer: FeesAnswer)
    requires Inv(s) && TimelyInv(s)
    ensures TimelyInv(Next(s, FeesAnswered(answer)))
  {
  }

  lemma TimelySettled(s: State, b: Blocks, t: State)
    requires Inv(s) && TimelyInv(s)
    requires !s.signer.Asked? && !s.signer.NotAsked? && |b.lookups| == |s.blocks.lookups|
    requires SettledRun(s, t) && t == s.(blocks := b, run := t.run, settled := t.settled)
    requires !s.settled.Open? ==> t == s.(blocks := b)
    ensures TimelyInv(t)
  {
  }

  lemma TimelyArrival(s: State, r: Receipt)
    requires Inv(s) && TimelyInv(s) && !s.signer.Asked?
    ensures TimelyInv(Next(s, Arrive(r)))
  {
    if Listening(s) {
      NextInv(s, Arrive(r));
      var t := OnReceipt(s, r);
      assert s.signer == Approved(true) ==> s.finishers == [];
    }
  }

  lemma {:induction false} TimelyRun(batch: bool, es: seq<Step>)
    requires Timely(batch, es)
    ensures TimelyInv(After(batch, es))
    decreases |es|
  {
    if es != [] {
      var before := es[..|es| - 1];
      forall k | 0 <= k < |before| && before[k].Arrive? ensures !After(batch, before[..k]).signer.Asked? {
        assert before[..k] == es[..k];
      }
      TimelyRun(batch, before);
      AfterInv(batch, before);
      TimelyNext(After(batch, before), es[|es| - 1]);
    }
  }

  lemma TimelyShape(s: State, e: Step)
    requires Inv(s) && TimelyInv(s) && Recorded(s.run)
    ensures Ordinary(s.run.history)
    ensures s.run.status.Terminal() ==> Next(s, e).run.status == s.run.status && Next(s, e).run.emitted == s.run.emitted
  {
    HistoryShape(s.run, s.signer, s.settled);
    if s.run.status.Terminal() {
      TerminalMeansDone(s);
      RecordedNext(s, e);
      TerminalLeftExactly(s, e);
      TerminalKeepsEvents(s, e);
    }
  }

  lemma TerminalKeepsEvents(s: State, e: Step)
    requires Inv(s) && s.run.phase.Done? && !(e.Approve? && s.signer.Asked?)
    requires s.settled.Open? ==> s.signer.NotAsked?
    ensures Next(s, e).run.emitted == s.run.emitted
  {
  }

  /** With the approval first: only ordinary histories, and a terminal status is never left. */
  lemma TimelyHistory(batch: bool, es: seq<Step>, e: Step)
    requires Timely(batch, es)
    ensures var s := After(batch, es);
            && Ordinary(s.run.history)
            && (s.run.status.Terminal() ==> Next(s, e).run.status == s.run.status && Next(s, e).run.emitted == s.run.emitted)
  {
    TimelyRun(batch, es);
    EmittedIsAssigned(batch, es);
    AfterInv(batch, es);
    TimelyShape(After(batch, es), e);
  }

  /** Waiting for the signer. */
  ghost function Asking(batch: bool): State {
    Initial(batch).(run := WithStatus(Fresh(Submitted), Unapproved), signer := Asked)
  }

  /** How every run that is sent begins. */
  function Opening(): seq<Step> {
    [Call] + [FeesAnswered(Covered)]
  }

  lemma OpeningAsks(batch: bool)
    ensures After(batch, Opening()) == Asking(batch)
  {
    assert Opening()[..1] == [Call] && [Call][..0] == [];
    assert After(batch, [Call]) == Next(Initial(batch), Call);
    AfterOneMore(batch, [Call], FeesAnswered(Covered));
  }

  /** Without it, a transaction reported as aborted can be reported as running afterwards ... */
  lemma LateApprovalAfterError(r: Receipt)
    requires r.status.Errored?
    ensures After(false, Opening() + [Arrive(r)] + [Approve("0x1", true)]).run.history
         == [Idle, Unapproved, Aborted, Running]
  {
    OpeningAsks(false);
    AfterTwoMore(false, Opening(), Arrive(r), Approve("0x1", true));
    AbortedThenRunning(r);
  }

  lemma AbortedThenRunning(r: Receipt)
    requires r.status.Errored?
    ensures Next(Next(Asking(false), Arrive(r)), Approve("0x1", true)).run.history
         == [Idle, Unapproved, Aborted, Running]
  {
    assert Next(Asking(false), Arrive(r)).settled == Thrown(TransactionAborted);
  }

  /** ... and so can one that failed because a block could not be fetched, with no error receipt at all. */
  lemma LateApprovalAfterLostBlock(block: Receipt, final: Receipt)
    requires block.status == InBlock("0xb") && final.status == Finalized("0xb") && block.events == []
    ensures After(false, Opening() + [Arrive(block)] + [Arrive(final)] + [LoseBlock(0)] + [Approve("0x1", true)]).run.history
         == [Idle, Unapproved, Failed, Running]
  {
    OpeningAsks(false);
    AfterTwoMore(false, Opening(), Arrive(block), Arrive(final));
    AfterTwoMore(false, Opening() + [Arrive(block)] + [Arrive(final)], LoseBlock(0), Approve("0x1", true));
    InAndFinalized(block, final);
    LostBlock(Finalizing(block, final));
  }

  /** Still waiting for the signer, an in-block receipt and a finalized one having arrived. */
  ghost function Finalizing(block: Receipt, final: Receipt): State
    requires block.status.InBlock?
  {
    Asking(false).(blocks := StartLookup(Asking(false).blocks, block.status.hash, block.txIndex),
                   unsubscribing := true, finishers := [Finisher(Deliver(final), 1)])
  }

  lemma InAndFinalized(block: Receipt, final: Receipt)
    requires block.status.InBlock? && final.status.Finalized? && !Emitted(block, ExtrinsicFailed)
    ensures Next(Next(Asking(false), Arrive(block)), Arrive(final)) == Finalizing(block, final)
  {
  }

  lemma LostBlock(s: State)
    requires s.run == Asking(false).run && s.signer.Asked? && s.settled.Open?
    requires |s.blocks.lookups| == |s.finishers| == 1
    requires s.blocks.lookups[0].answer.Waiting? && s.finishers[0].started == 1
    ensures Next(Next(s, LoseBlock(0)), Approve("0x1", true)).run.history == [Idle, Unapproved, Failed, Running]
  {
    var t := Next(s, LoseBlock(0));
    assert t.settled == Thrown(Foreign) && t.signer.Asked?;
    assert t.run.history == [Idle, Unapproved] + [Failed];
  }

  // ---------------------------------------------------------------- a second run

  /** Once `run` is over, calling it again does nothing but throw. */
  lemma NeverRunsAgain(s: State)
    requires Inv(s) && Recorded(s.run) && s.run.status.Terminal()
    ensures Next(s, Call) == s
  {
    TerminalMeansDone(s);
  }

  // ---------------------------------------------------------------- the way to submission

  function AnswerFor(tx: Fees.Tx, w: Fees.World, gas: real): FeesAnswer {
    match Fees.AssertFeesCovered(tx, w, gas)
    case None => Covered
    case Some(fault) => NotCovered(fault)
  }

  /** A run that is checking its fees is handed to the signer exactly when the one who pays can spend the
      total and, if that is a subsidizer, may and is allowed to; otherwise it fails without being sent. */
  lemma SentExactlyWhenCovered(s: State, tx: Fees.Tx, w: Fees.World, gas: real)
    requires Inv(s) && s.run.phase.CheckingFees?
    ensures var t := Next(s, FeesAnswered(AnswerFor(tx, w, gas)));
            && (t.signer.Asked? <==> exists account, subsidized ::
                  && Fees.Pays(tx, w, account, subsidized)
                  && Fees.ProtocolFees(tx, w) + gas <= Fees.Spendable(w.accounts(account))
                  && (subsidized ==>
                       Fees.SupportsSubsidy(tx) && Fees.ProtocolFees(tx, w) + gas <= w.subsidy.value.allowance))
            && (!t.signer.Asked? ==> t.run.hasRun && t.run.status.Failed? && t.signer.NotAsked?)
  {
    Fees.CoveredExactly(tx, w, gas);
    assert s.run == Fresh(CheckingFees) && s.signer.NotAsked?;
  }

  // ---------------------------------------------------------------- the submission promise

  lemma SettledOnce(s: State, e: Step)
    requires Inv(s) && !s.settled.Open?
    ensures Next(s, e).settled == s.settled
  {
    match e
    case Arrive(_) =>
    case _ =>
  }

  /** The promise resolves only with a finalized receipt, after the signer approved, after the block lookup
      that was the newest when that receipt came, and for a batch only without an interruption. */
  lemma ResolvedOnlyAfter(batch: bool, es: seq<Step>)
    ensures var s := After(batch, es);
            s.settled.Resolved? ==>
              var r := s.settled.receipt;
              && s.signer == Approved(true)
              && r.status.Finalized?
              && (batch ==> !Emitted(r, BatchInterrupted))
              && exists k :: 0 <= k < |s.finishers| && s.finishers[k].verdict == Deliver(r)
                          && LookupOver(s.blocks.lookups, s.finishers[k].started)
  {
    var s := After(batch, es);
    AfterInv(batch, es);
    if s.settled.Resolved? {
      var k :| 0 <= k < |s.finishers| && Decides(s.batch, s.settled, s.blocks.lookups, s.finishers[k]);
      assert s.finishers[k].verdict == Deliver(s.settled.receipt);
    }
  }

  /** Nothing is left hanging: once the signer has approved and a completing receipt has come, the promise is
      settled as soon as no block lookup is under way. */
  lemma SettledWhenAnswered(batch: bool, es: seq<Step>)
    ensures var s := After(batch, es);
            s.signer.Approved? && s.finishers != [] && (forall i: nat :: !Pending(s.blocks, i)) ==> !s.settled.Open?
  {
    AfterInv(batch, es);
    NoneWaits(After(batch, es));
  }

  lemma NoneWaits(s: State)
    requires Inv(s)
    ensures s.signer.Approved? && s.finishers != [] && (forall i: nat :: !Pending(s.blocks, i)) ==> !s.settled.Open?
  {
    if s.signer.Approved? && s.finishers != [] && s.settled.Open? {
      assert Readied(s.signer, s.blocks.lookups, s.finishers[0].started).Wait?;
      assert Pending(s.blocks, s.finishers[0].started - 1);
    }
  }

  /** With the approval first, that lookup is the newest there ever is, and no in-block receipt of the run
      reported a failed extrinsic. */
  lemma TimelySuccess(batch: bool, es: seq<Step>)
    requires Timely(batch, es)
    ensures var s := After(batch, es);
            s.settled.Resolved? ==>
              && LookupOver(s.blocks.lookups, |s.blocks.lookups|)
              && s.finishers == [Finisher(Deliver(s.settled.receipt), |s.blocks.lookups|)]
  {
    TimelyRun(batch, es);
    AfterInv(batch, es);
    if After(batch, es).settled.Resolved? {
      OneFinisher(After(batch, es));
    }
  }

  lemma OneFinisher(s: State)
    requires Inv(s) && TimelyInv(s) && s.settled.Resolved?
    ensures LookupOver(s.blocks.lookups, |s.blocks.lookups|)
    ensures s.finishers == [Finisher(Deliver(s.settled.receipt), |s.blocks.lookups|)]
  {
    var k :| 0 <= k < |s.finishers| && Decides(s.batch, s.settled, s.blocks.lookups, s.finishers[k]);
  }

  lemma FinishersGrow(s: State, e: Step)
    requires Inv(s)
    ensures s.finishers <= Next(s, e).finishers
  {
    match e
    case Arrive(r) =>
    case _ =>
  }

  lemma {:induction false} FinishersOnlyGrow(batch: bool, es: seq<Step>, k: nat)
    requires k <= |es|
    ensures After(batch, es[..k]).finishers <= After(batch, es).finishers
    decreases |es|
  {
    if k < |es| {
      var before := es[..|es| - 1];
      assert before[..k] == es[..k];
      FinishersOnlyGrow(batch, before, k);
      AfterInv(batch, before);
      FinishersGrow(After(batch, before), es[|es| - 1]);
    } else {
      assert es[..k] == es;
    }
  }
}
