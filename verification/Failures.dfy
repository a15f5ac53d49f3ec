/** Runs that were told of a failed extrinsic: whether they can end in success. */
module Failures {
  import opened Common
  import opened Receipts
  import opened Lifecycle
  import opened LifecycleProperties

  /** The object has been told of a failed extrinsic in a block. */
  ghost predicate Reverting(finishers: seq<Finisher>) {
    exists j :: 0 <= j < |finishers| && finishers[j].verdict.Revert?
  }

  ghost predicate AllRevert(finishers: seq<Finisher>) {
    forall j :: 0 <= j < |finishers| ==> finishers[j].verdict.Revert?
  }

  lemma {:induction false} ToldOfFailure(batch: bool, es: seq<Step>, k: nat, r: Receipt)
    requires k < |es| && es[k] == Arrive(r) && Listening(After(batch, es[..k]))
    requires r.status.InBlock? && Emitted(r, ExtrinsicFailed)
    ensures Reverting(After(batch, es[..k + 1]).finishers)
  {
    assert es[..k + 1] == es[..k] + [Arrive(r)];
    AfterOneMore(batch, es[..k], Arrive(r));
    RevertAdded(After(batch, es[..k]), r);
  }

  lemma RevertAdded(s: State, r: Receipt)
    requires FinishersFit(s.finishers, s.blocks.lookups) && r.status.InBlock? && Emitted(r, ExtrinsicFailed)
    ensures Reverting(OnReceipt(s, r).finishers)
  {
    assert OnReceipt(s, r).finishers[|s.finishers|].verdict.Revert?;
  }

  // ---------------------------------------------------------------- a sufficient order of events

  /** No finalized receipt is delivered while the signer has yet to answer. */
  ghost predicate FinalizedAfterApproval(batch: bool, es: seq<Step>) {
    forall k :: 0 <= k < |es| && es[k].Arrive? && es[k].receipt.status.Finalized? ==>
      !After(batch, es[..k]).signer.Asked?
  }

  ghost predicate OneKind(s: State) {
    && (s.signer.Asked? ==> AllRevert(s.finishers))
    && (s.signer == Approved(true) && Reverting(s.finishers) ==> AllRevert(s.finishers))
  }

  lemma OneKindNext(s: State, e: Step)
    requires Inv(s) && OneKind(s)
    requires e.Arrive? && e.receipt.status.Finalized? ==> !s.signer.Asked?
    ensures OneKind(Next(s, e))
  {
    match e
    case Arrive(r) => OneKindArrival(s, r);
    case FeesAnswered(answer) => OneKindFees(s, answer);
    case _ =>
  }

  lemma OneKindFees(s: State, answer: FeesAnswer)
    requires Inv(s) && OneKind(s)
    ensures OneKind(Next(s, FeesAnswered(answer)))
  {
  }

  lemma OneKindArrival(s: State, r: Receipt)
    requires Inv(s) && OneKind(s) && (r.status.Finalized? ==> !s.signer.Asked?)
    ensures OneKind(Next(s, Arrive(r)))
  {
    if Listening(s) {
      assert s.signer == Approved(true) ==> s.finishers == [];
    }
  }

  lemma {:induction false} OneKindRun(batch: bool, es: seq<Step>)
    requires FinalizedAfterApproval(batch, es)
    ensures OneKind(After(batch, es))
    decreases |es|
  {
    if es != [] {
      var before := es[..|es| - 1];
      forall k | 0 <= k < |before| && before[k].Arrive? && before[k].receipt.status.Finalized?
        ensures !After(batch, before[..k]).signer.Asked?
      {
        assert before[..k] == es[..k];
      }
      OneKindRun(batch, before);
      AfterInv(batch, before);
      OneKindNext(After(batch, before), es[|es| - 1]);
    }
  }

  /** A run that was told of a failed extrinsic in a block never succeeds, whatever follows, unless a finalized
      receipt came before the signer had answered. */
  lemma ReportedFailureNeverSucceeds(batch: bool, es: seq<Step>, k: nat, r: Receipt)
    requires FinalizedAfterApproval(batch, es)
    requires k < |es| && es[k] == Arrive(r) && Listening(After(batch, es[..k]))
    requires r.status.InBlock? && Emitted(r, ExtrinsicFailed)
    ensures !After(batch, es).settled.Resolved?
  {
    ToldOfFailure(batch, es, k, r);
    FinishersOnlyGrow(batch, es, k + 1);
    OneKindRun(batch, es);
    AfterInv(batch, es);
    RevertingNeverResolved(After(batch, es[..k + 1]).finishers, After(batch, es));
  }

  lemma RevertingNeverResolved(before: seq<Finisher>, s: State)
    requires Inv(s) && OneKind(s) && Reverting(before) && before <= s.finishers
    ensures !s.settled.Resolved?
  {
    var j :| 0 <= j < |before| && before[j].verdict.Revert?;
    assert s.finishers[j].verdict.Revert?;
  }

  // ---------------------------------------------------------------- exactly when such a run can succeed

  predicate Accepts(batch: bool, verdict: Verdict) {
    verdict.Deliver? && !(batch && Emitted(verdict.receipt, BatchInterrupted))
  }

  ghost predicate Over(s: State, k: nat)
    requires FinishersFit(s.finishers, s.blocks.lookups) && k < |s.finishers|
  {
    LookupOver(s.blocks.lookups, s.finishers[k].started)
  }

  /** Finisher `k` delivers a receipt, no earlier one has its lookup, and none waits for the same one. */
  ghost predicate Ahead(s: State, k: nat)
    requires FinishersFit(s.finishers, s.blocks.lookups)
  {
    && k < |s.finishers| && Accepts(s.batch, s.finishers[k].verdict)
    && forall j: nat :: j < k ==> !Over(s, j) && s.finishers[j].started < s.finishers[k].started
  }

  ghost predicate NoneOver(s: State)
    requires FinishersFit(s.finishers, s.blocks.lookups)
  {
    forall k: nat :: k < |s.finishers| ==> !Over(s, k)
  }

  /** The run has resolved; or it is open, and a finalized receipt is ahead of the failure; or the signer is still
      being asked and the lookup of no completing receipt has been answered yet. */
  ghost predicate CanSucceed(s: State)
    requires FinishersFit(s.finishers, s.blocks.lookups)
  {
    || s.settled.Resolved?
    || (s.settled.Open? && ((exists k: nat :: Ahead(s, k)) || (s.signer.Asked? && NoneOver(s))))
  }

  /** Where an open run with completing receipts can be. */
  lemma OpenMeans(s: State)
    requires Inv(s) && s.settled.Open? && s.finishers != []
    ensures s.signer.Asked? || s.signer == Approved(true)
    ensures s.run.phase.Submitted? && s.unsubscribing
    ensures forall k: nat :: k < |s.finishers| && s.finishers[k].started > 0 ==>
              !s.blocks.lookups[s.finishers[k].started - 1].answer.Broken?
    ensures s.signer.Approved? ==> NoneOver(s)
  {
    forall k: nat | k < |s.finishers|
      ensures s.finishers[k].started > 0 ==> !s.blocks.lookups[s.finishers[k].started - 1].answer.Broken?
      ensures s.signer.Approved? ==> !Over(s, k)
    {
      assert Readied(s.signer, s.blocks.lookups, s.finishers[k].started).Wait?;
    }
    assert Readied(s.signer, s.blocks.lookups, s.finishers[0].started).Wait?;
  }

  /** If answers are only added and finishers kept, who is ahead now was ahead before. */
  lemma AheadBefore(s: State, t: State, k: nat)
    requires FinishersFit(s.finishers, s.blocks.lookups) && FinishersFit(t.finishers, t.blocks.lookups)
    requires t.batch == s.batch && s.finishers <= t.finishers && |s.blocks.lookups| <= |t.blocks.lookups|
    requires forall i :: 0 <= i < |s.blocks.lookups| && s.blocks.lookups[i].answer.Fetched? ==>
               t.blocks.lookups[i].answer.Fetched?
    requires Ahead(t, k) && k < |s.finishers|
    ensures Ahead(s, k)
  {
    forall j: nat | j < k ensures !Over(s, j) && s.finishers[j].started < s.finishers[k].started {
      assert !Over(t, j);
    }
  }

  /** With a failure among the finishers and no finalized receipt ahead of it, the first one whose lookup is over
      does not accept. */
  lemma FirstOverRefuses(s: State, t: State, m: nat)
    requires Inv(s) && FinishersFit(t.finishers, t.blocks.lookups) && t.batch == s.batch && t.finishers == s.finishers
    requires forall i :: 0 <= i < |s.blocks.lookups| && i < |t.blocks.lookups| && s.blocks.lookups[i].answer.Fetched? ==>
               t.blocks.lookups[i].answer.Fetched?
    requires |s.blocks.lookups| <= |t.blocks.lookups|
    requires m < |s.finishers| && Over(t, m) && forall j: nat :: j < m ==> !Over(t, j)
    requires !exists k: nat :: Ahead(s, k)
    ensures !Accepts(s.batch, s.finishers[m].verdict)
  {
    if Accepts(s.batch, s.finishers[m].verdict) {
      forall j: nat | j < m ensures !Over(t, j) && t.finishers[j].started < t.finishers[m].started {
        assert t.finishers[j].started <= t.finishers[m].started;
      }
      AheadBefore(s, t, m);
    }
  }

  lemma JudgeRefuses(s: State, verdict: Verdict)
    requires s.settled.Open?
    ensures Accepts(s.batch, verdict) ==> Judge(s, verdict).settled == Resolved(verdict.receipt)
    ensures !Accepts(s.batch, verdict) ==> Judge(s, verdict).settled.Thrown?
  {
  }

  /** Approved, with some lookups answered: the first finisher whose lookup is over decides, if there is one. */
  lemma FlushWhenApproved(s: State)
    requires FinishersFit(s.finishers, s.blocks.lookups) && s.settled.Open? && s.signer == Approved(true)
    requires forall k: nat :: k < |s.finishers| && s.finishers[k].started > 0 ==>
               !s.blocks.lookups[s.finishers[k].started - 1].answer.Broken?
    ensures NoneOver(s) ==> Flush(s) == s
    ensures forall m: nat :: m < |s.finishers| && Over(s, m) && (forall j: nat :: j < m ==> !Over(s, j)) ==>
              Flush(s) == Judge(s, s.finishers[m].verdict)
  {
    forall k: nat | k < |s.finishers|
      ensures Readied(s.signer, s.blocks.lookups, s.finishers[k].started) == if Over(s, k) then Go else Wait
    {
    }
  }

  lemma FirstOver(s: State, k: nat) returns (m: nat)
    requires FinishersFit(s.finishers, s.blocks.lookups) && k < |s.finishers| && Over(s, k)
    ensures m <= k && Over(s, m) && forall j: nat :: j < m ==> !Over(s, j)
    decreases k
  {
    if j: nat :| j < k && Over(s, j) {
      m := FirstOver(s, j);
    } else {
      m := k;
    }
  }

  // The steps of a run that cannot succeed: it cannot succeed afterwards either.

  ghost predicate Hopeless(s: State) {
    Inv(s) && s.settled.Open? && s.finishers != [] && !CanSucceed(s)
  }

  lemma HopelessApproval(s: State, hash: string, works: bool)
    requires Hopeless(s) && s.signer.Asked?
    ensures Next(s, Approve(hash, works)).settled.Thrown?
  {
    if works {
      HopelessGo(s, hash);
    } else {
      var t := Approving(s, hash, false);
      assert Readied(t.signer, t.blocks.lookups, t.finishers[0].started).Break?;
    }
  }

  lemma HopelessGo(s: State, hash: string)
    requires Hopeless(s) && s.signer.Asked?
    ensures Flush(Approving(s, hash, true)).settled.Thrown?
  {
    OpenMeans(s);
    var t := Approving(s, hash, true);
    var k: nat :| k < |s.finishers| && Over(s, k);
    assert Over(t, k);
    var m := FirstOver(t, k);
    FirstOverRefuses(s, t, m);
    FlushWhenApproved(t);
    JudgeRefuses(t, t.finishers[m].verdict);
  }

  /** Answers to lookups, while the signer is being asked: nothing is decided, unless a chain breaks. */
  lemma FlushWhenAsked(s: State)
    requires FinishersFit(s.finishers, s.blocks.lookups) && s.settled.Open? && s.signer.Asked?
    ensures Flush(s) == s || Flush(s).settled.Thrown?
  {
  }

  lemma HopelessBlock(s: State, e: Step)
    requires Hopeless(s) && (e.FetchBlock? || e.LoseBlock?) && Pending(s.blocks, e.lookup)
    ensures !CanSucceed(Next(s, e))
  {
    OpenMeans(s);
    var t := s.(blocks := if e.FetchBlock? then Fetch(s.blocks, e.lookup, e.number) else Lose(s.blocks, e.lookup));
    if s.signer.Asked? {
      FlushWhenAsked(t);
    } else {
      HopelessDecision(s, t);
    }
    if Flush(t) == t {
      StillHopeless(s, t);
    }
  }

  lemma HopelessDecision(s: State, t: State)
    requires Hopeless(s) && s.signer == Approved(true) && t == s.(blocks := t.blocks)
    requires |t.blocks.lookups| == |s.blocks.lookups|
    requires forall i :: 0 <= i < |s.blocks.lookups| && s.blocks.lookups[i].answer.Fetched? ==>
               t.blocks.lookups[i].answer.Fetched?
    ensures Flush(t) == t || Flush(t).settled.Thrown?
  {
    match FirstReady(t.signer, t.blocks.lookups, t.finishers, 0)
    case None =>
    case Some(m) =>
      if Readied(t.signer, t.blocks.lookups, t.finishers[m].started).Go? {
        forall j: nat | j < m ensures !Over(t, j) {
          assert Readied(t.signer, t.blocks.lookups, t.finishers[j].started).Wait?;
        }
        FirstOverRefuses(s, t, m);
        JudgeRefuses(t, t.finishers[m].verdict);
      }
  }

  lemma StillHopeless(s: State, t: State)
    requires Hopeless(s) && t == s.(blocks := t.blocks) && |t.blocks.lookups| == |s.blocks.lookups|
    requires forall i :: 0 <= i < |s.blocks.lookups| && s.blocks.lookups[i].answer.Fetched? ==>
               t.blocks.lookups[i].answer.Fetched?
    ensures !CanSucceed(t)
  {
    forall k: nat ensures !Ahead(t, k) {
      if Ahead(t, k) {
        AheadBefore(s, t, k);
      }
    }
    if s.signer.Asked? {
      var k: nat :| k < |s.finishers| && Over(s, k);
      assert Over(t, k);
    }
  }

  /** One more receipt, while the signer is being asked. */
  lemma HopelessArrival(s: State, r: Receipt)
    requires Hopeless(s) && s.signer.Asked?
    ensures !CanSucceed(Next(s, Arrive(r)))
  {
    ArrivalAdds(s, r);
    HopelessWithMore(s, OnReceipt(s, r));
  }

  /** One more finisher is not ahead if an earlier one has its lookup. */
  lemma HopelessWithMore(s: State, t: State)
    requires Hopeless(s) && s.signer.Asked? && FinishersFit(t.finishers, t.blocks.lookups)
    requires t.batch == s.batch && s.finishers <= t.finishers && |t.finishers| <= |s.finishers| + 1
    requires s.blocks.lookups <= t.blocks.lookups && !t.settled.Resolved?
    ensures !CanSucceed(t)
  {
    var k: nat :| k < |s.finishers| && Over(s, k);
    assert Over(t, k);
    forall m: nat ensures !Ahead(t, m) {
      if Ahead(t, m) && m < |s.finishers| {
        AheadBefore(s, t, m);
      }
    }
  }

  lemma ArrivalAdds(s: State, r: Receipt)
    requires FinishersFit(s.finishers, s.blocks.lookups) && s.settled.Open? && s.signer.Asked?
    ensures var t := OnReceipt(s, r);
            && FinishersFit(t.finishers, t.blocks.lookups)
            && t.batch == s.batch && s.finishers <= t.finishers && |t.finishers| <= |s.finishers| + 1
            && s.blocks.lookups <= t.blocks.lookups && !t.settled.Resolved? && t.signer == s.signer
  {
  }

  lemma HopelessNext(s: State, e: Step)
    requires Inv(s) && Reverting(s.finishers) && !CanSucceed(s)
    ensures !CanSucceed(Next(s, e))
  {
    NextInv(s, e);
    if !s.settled.Open? {
      SettledOnce(s, e);
    } else {
      OpenMeans(s);
      match e
      case Approve(hash, works) => if s.signer.Asked? { HopelessApproval(s, hash, works); }
      case Refuse(_) =>
      case Arrive(r) => if s.signer.Asked? { HopelessArrival(s, r); }
      case FetchBlock(i, n) => if Pending(s.blocks, i) { HopelessBlock(s, e); }
      case LoseBlock(i) => if Pending(s.blocks, i) { HopelessBlock(s, e); }
      case _ =>
    }
  }

  lemma HopelessStep(batch: bool, es: seq<Step>, e: Step)
    requires Reverting(After(batch, es).finishers) && !CanSucceed(After(batch, es))
    ensures !CanSucceed(After(batch, es + [e]))
  {
    AfterInv(batch, es);
    AfterOneMore(batch, es, e);
    HopelessNext(After(batch, es), e);
  }

  lemma {:induction false} HopelessForGood(batch: bool, es: seq<Step>, more: seq<Step>)
    requires Reverting(After(batch, es).finishers) && !CanSucceed(After(batch, es))
    ensures !CanSucceed(After(batch, es + more))
    decreases |more|
  {
    if more == [] {
      assert es + more == es;
    } else {
      var less, e := more[..|more| - 1], more[|more| - 1];
      HopelessForGood(batch, es, less);
      FailuresStay(batch, es, less);
      assert es + more == es + less + [e];
      HopelessStep(batch, es + less, e);
    }
  }

  lemma FailuresStay(batch: bool, es: seq<Step>, more: seq<Step>)
    requires Reverting(After(batch, es).finishers)
    ensures Reverting(After(batch, es + more).finishers)
  {
    assert (es + more)[..|es|] == es;
    FinishersOnlyGrow(batch, es + more, |es|);
    var j :| 0 <= j < |After(batch, es).finishers| && After(batch, es).finishers[j].verdict.Revert?;
    assert After(batch, es + more).finishers[j].verdict.Revert?;
  }

  // The other direction: the events that make it succeed.

  ghost predicate CanBeResolved(batch: bool, es: seq<Step>) {
    exists more :: After(batch, es + more).settled.Resolved?
  }

  lemma ResolvedNow(batch: bool, es: seq<Step>)
    requires After(batch, es).settled.Resolved?
    ensures CanBeResolved(batch, es)
  {
    assert es + [] == es;
  }

  lemma ResolvedLater(batch: bool, es: seq<Step>, e: Step)
    requires CanBeResolved(batch, es + [e])
    ensures CanBeResolved(batch, es)
  {
    var more :| After(batch, es + [e] + more).settled.Resolved?;
    assert es + ([e] + more) == es + [e] + more;
  }

  /** Ahead, and its lookup over: the approval is enough. */
  lemma ApprovalResolves(s: State, k: nat)
    requires Inv(s) && s.settled.Open? && s.signer.Asked? && Ahead(s, k) && Over(s, k)
    ensures Next(s, Approve("0x1", true)).settled.Resolved?
  {
    OpenMeans(s);
    AheadDecides(Approving(s, "0x1", true), k);
  }

  lemma AheadDecides(t: State, k: nat)
    requires FinishersFit(t.finishers, t.blocks.lookups) && t.settled.Open? && t.signer == Approved(true)
    requires forall j: nat :: j < |t.finishers| && t.finishers[j].started > 0 ==>
               !t.blocks.lookups[t.finishers[j].started - 1].answer.Broken?
    requires Ahead(t, k) && Over(t, k)
    ensures Flush(t).settled.Resolved?
  {
    FlushWhenApproved(t);
    JudgeRefuses(t, t.finishers[k].verdict);
  }

  /** Otherwise its lookup must be answered first. */
  lemma AnswerPutsAhead(s: State, k: nat)
    requires Inv(s) && s.settled.Open? && Ahead(s, k) && !Over(s, k)
    ensures var i := s.finishers[k].started - 1;
            && i >= 0 && Pending(s.blocks, i)
            && var t := s.(blocks := Fetch(s.blocks, i, 0));
               FinishersFit(t.finishers, t.blocks.lookups) && Ahead(t, k) && Over(t, k)
  {
    OpenMeans(s);
    var t := s.(blocks := Fetch(s.blocks, s.finishers[k].started - 1, 0));
    forall j: nat | j < k ensures !Over(t, j) {
      assert !Over(s, j);
    }
  }

  lemma AnswerResolves(s: State, k: nat)
    requires Inv(s) && s.settled.Open? && Ahead(s, k) && !Over(s, k)
    ensures var t := Next(s, FetchBlock(s.finishers[k].started - 1, 0));
            if s.signer.Asked? then t.settled.Open? && t.signer.Asked? && FinishersFit(t.finishers, t.blocks.lookups) && Ahead(t, k) && Over(t, k)
            else t.settled.Resolved?
  {
    OpenMeans(s);
    AnswerPutsAhead(s, k);
    var t := s.(blocks := Fetch(s.blocks, s.finishers[k].started - 1, 0));
    if s.signer.Asked? {
      assert forall j: nat :: j < |t.finishers| ==> Readied(t.signer, t.blocks.lookups, t.finishers[j].started).Wait?;
    } else {
      FlushWhenApproved(t);
      JudgeRefuses(t, t.finishers[k].verdict);
    }
  }

  lemma AheadCanResolve(batch: bool, es: seq<Step>, k: nat)
    requires After(batch, es).settled.Open? && Ahead(After(batch, es), k)
    ensures CanBeResolved(batch, es)
  {
    var s := After(batch, es);
    AfterInv(batch, es);
    OpenMeans(s);
    if Over(s, k) {
      ApprovalResolves(s, k);
      AfterOneMore(batch, es, Approve("0x1", true));
      ResolvedNow(batch, es + [Approve("0x1", true)]);
      ResolvedLater(batch, es, Approve("0x1", true));
    } else {
      var e := FetchBlock(s.finishers[k].started - 1, 0);
      AnswerPutsAhead(s, k);
      AnswerResolves(s, k);
      AfterOneMore(batch, es, e);
      if s.signer.Asked? {
        OverCanResolve(batch, es + [e], k);
      } else {
        ResolvedNow(batch, es + [e]);
      }
      ResolvedLater(batch, es, e);
    }
  }

  lemma OverCanResolve(batch: bool, es: seq<Step>, k: nat)
    requires var s := After(batch, es); s.settled.Open? && s.signer.Asked? && Ahead(s, k) && Over(s, k)
    ensures CanBeResolved(batch, es)
  {
    AfterInv(batch, es);
    ApprovalResolves(After(batch, es), k);
    AfterOneMore(batch, es, Approve("0x1", true));
    ResolvedNow(batch, es + [Approve("0x1", true)]);
    ResolvedLater(batch, es, Approve("0x1", true));
  }

  const NEW_BLOCK := Receipt(InBlock("0xb"), 0, [])
  const NEW_FINAL := Receipt(Finalized("0xb"), 0, [])

  /** With no lookup answered, one more block and a finalized receipt get ahead of all finishers. */
  lemma NewReceiptsGetAhead(s: State)
    requires Inv(s) && s.settled.Open? && s.signer.Asked? && s.finishers != [] && NoneOver(s)
    ensures var t := Next(s, Arrive(NEW_BLOCK));
            && FinishersFit(t.finishers, t.blocks.lookups)
            && var u := Next(t, Arrive(NEW_FINAL));
               u.settled.Open? && FinishersFit(u.finishers, u.blocks.lookups) && Ahead(u, |s.finishers|)
  {
    OpenMeans(s);
    var t := s.(blocks := StartLookup(s.blocks, "0xb", 0));
    assert Next(s, Arrive(NEW_BLOCK)) == t;
    var u := t.(unsubscribing := true, finishers := t.finishers + [Finisher(Deliver(NEW_FINAL), |t.blocks.lookups|)]);
    forall j: nat | j < |u.finishers| ensures Readied(u.signer, u.blocks.lookups, u.finishers[j].started).Wait? {
      if j < |s.finishers| {
        assert Readied(s.signer, s.blocks.lookups, s.finishers[j].started).Wait?;
      }
    }
    assert Next(t, Arrive(NEW_FINAL)) == u;
    forall j: nat | j < |s.finishers| ensures !Over(u, j) && u.finishers[j].started < u.finishers[|s.finishers|].started {
      assert !Over(s, j);
    }
  }

  lemma NoneOverCanResolve(batch: bool, es: seq<Step>)
    requires var s := After(batch, es); s.settled.Open? && s.signer.Asked? && s.finishers != [] && NoneOver(s)
    ensures CanBeResolved(batch, es)
  {
    AfterInv(batch, es);
    NewReceiptsGetAhead(After(batch, es));
    AfterTwoMore(batch, es, Arrive(NEW_BLOCK), Arrive(NEW_FINAL));
    AheadCanResolve(batch, es + [Arrive(NEW_BLOCK)] + [Arrive(NEW_FINAL)], |After(batch, es).finishers|);
    ResolvedLater(batch, es + [Arrive(NEW_BLOCK)], Arrive(NEW_FINAL));
    ResolvedLater(batch, es, Arrive(NEW_BLOCK));
  }

  /** After any run that was told of a failed extrinsic: some continuation ends in success if and only if it has
      resolved already, or it is open and a finalized receipt is ahead of the failure, or the signer is still being
      asked and no lookup a completing receipt waits for has been answered. */
  lemma FailureCanSucceedExactly(batch: bool, es: seq<Step>)
    ensures Reverting(After(batch, es).finishers) ==>
              (CanBeResolved(batch, es) <==> CanSucceed(After(batch, es)))
  {
    var s := After(batch, es);
    if Reverting(s.finishers) {
      if CanSucceed(s) {
        if s.settled.Resolved? {
          ResolvedNow(batch, es);
        } else if k: nat :| Ahead(s, k) {
          AheadCanResolve(batch, es, k);
        } else {
          NoneOverCanResolve(batch, es);
        }
      } else {
        forall more ensures !After(batch, es + more).settled.Resolved? {
          HopelessForGood(batch, es, more);
        }
      }
    }
  }

  // ---------------------------------------------------------------- failures only the finalized receipt reports

  /** What a finalized receipt does to an approved run that is still open: it succeeds if and only if the newest
      lookup is over and, for a batch, it was not interrupted. That it reports a failed extrinsic plays no part. */
  lemma FinalReceiptDecides(s: State, r: Receipt)
    requires Inv(s) && s.signer == Approved(true) && s.settled.Open? && Listening(s) && r.status.Finalized?
    ensures var t := Next(s, Arrive(r));
            && (t.settled == Resolved(r) <==>
                  LookupOver(s.blocks.lookups, |s.blocks.lookups|) && Accepts(s.batch, Deliver(r)))
            && (t.settled.Open? <==> s.blocks.lookups != [] && s.blocks.lookups[|s.blocks.lookups| - 1].answer.Waiting?)
  {
    assert s.finishers == [];
    var waiting := [Finisher(Deliver(r), |s.blocks.lookups|)];
    assert s.finishers + waiting == waiting;
    var t := s.(unsubscribing := true, finishers := waiting);
    assert FirstReady(t.signer, t.blocks.lookups, waiting, 1).None?;
    JudgeRefuses(t, Deliver(r));
  }

  // ---------------------------------------------------------------- a run with a hidden failure

  /** A block with the failure is retracted, a new one comes without it, and the lookup of the old one is the last
      to be answered: all before the approval but for the lookups. */
  lemma LateApprovalHidesFailure(failed: Receipt, moved: Receipt, final: Receipt, n: nat)
    requires failed.status == InBlock("old") && Emitted(failed, ExtrinsicFailed)
    requires moved.status == InBlock("new") && moved.events == [] && final.status == Finalized("new")
    ensures var es := Opening() + [Arrive(failed)] + [Arrive(moved)] + [Arrive(final)];
            After(false, es + [Approve("0x1", true)] + [FetchBlock(1, n)]).settled == Resolved(final)
  {
    OpeningAsks(false);
    AfterTwoMore(false, Opening(), Arrive(failed), Arrive(moved));
    var es := Opening() + [Arrive(failed)] + [Arrive(moved)];
    AfterOneMore(false, es, Arrive(final));
    AfterTwoMore(false, es + [Arrive(final)], Approve("0x1", true), FetchBlock(1, n));
    FailedThenMoved(failed, moved);
    HiddenFailure(TwoBlocks(failed, moved), final, n);
  }

  ghost function TwoBlocks(failed: Receipt, moved: Receipt): State {
    Asking(false).(unsubscribing := true, finishers := [Finisher(Revert, 1)],
                   blocks := StartLookup(StartLookup(Asking(false).blocks, "old", failed.txIndex), "new", moved.txIndex))
  }

  lemma FailedThenMoved(failed: Receipt, moved: Receipt)
    requires failed.status == InBlock("old") && Emitted(failed, ExtrinsicFailed)
    requires moved.status == InBlock("new") && moved.events == []
    ensures Next(Next(Asking(false), Arrive(failed)), Arrive(moved)) == TwoBlocks(failed, moved)
  {
    var s := Next(Asking(false), Arrive(failed));
    assert s == Asking(false).(unsubscribing := true, finishers := [Finisher(Revert, 1)],
                               blocks := StartLookup(Asking(false).blocks, "old", failed.txIndex));
  }

  lemma HiddenFailure(s: State, final: Receipt, n: nat)
    requires !s.batch && s.settled.Open? && s.signer.Asked? && |s.blocks.lookups| == 2
    requires s.blocks.lookups[0].answer.Waiting? && s.blocks.lookups[1].answer.Waiting?
    requires s.finishers == [Finisher(Revert, 1)] && final.status.Finalized?
    ensures Next(Next(Next(s, Arrive(final)), Approve("0x1", true)), FetchBlock(1, n)).settled == Resolved(final)
  {
    var both := [Finisher(Revert, 1), Finisher(Deliver(final), 2)];
    assert s.finishers + [Finisher(Deliver(final), 2)] == both;
    assert FirstReady(Asked, s.blocks.lookups, both, 1).None?;
    assert FirstReady(Approved(true), s.blocks.lookups, both, 1).None?;
    var t := Approving(s.(unsubscribing := true, finishers := both), "0x1", true);
    assert Next(Next(s, Arrive(final)), Approve("0x1", true)) == t;
    assert FirstReady(Approved(true), Fetch(s.blocks, 1, n).lookups, both, 1) == Some(1);
  }
}
