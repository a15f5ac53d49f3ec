/** The schedule the documentation of `splitTransactions` asks for: one transaction after the other, in order. */
module SplitSchedule {
  import opened Common
  import opened Receipts
  import opened Lifecycle
  import opened LifecycleProperties
  import opened Splitting

  ghost predicate AllFinalized(rs: seq<Receipt>) {
    forall i :: 0 <= i < |rs| ==> rs[i].status.Finalized?
  }

  /** One run from the call to the end of its resolver; what that returns is not up to the schedule. */
  function Tour(i: nat, r: Receipt): seq<(nat, Step)> {
    [(i, Call), (i, FeesAnswered(Covered)), (i, Approve("0x1", true)), (i, Arrive(r)), (i, ValueReady(Undefined))]
  }

  /** The first `k` runs, with these receipts. */
  function Tours(rs: seq<Receipt>, k: nat): seq<(nat, Step)>
    requires k <= |rs|
  {
    if k == 0 then [] else Tours(rs, k - 1) + Tour(k - 1, rs[k - 1])
  }

  // ---------------------------------------------------------------- one object

  ghost function Called(): State {
    Initial(false).(run := Fresh(CheckingFees))
  }

  ghost function Signed(): State {
    Approving(Asking(false), "0x1", true)
  }

  ghost function Delivered(r: Receipt): State {
    var s := Signed();
    s.(unsubscribing := true, finishers := [Finisher(Deliver(r), 0)], settled := Resolved(r),
       run := s.run.(receipt := Some(r), phase := Resolving))
  }

  ghost function Ended(r: Receipt, o: Outcome): State {
    var s := Delivered(r);
    match o
    case Returned(v) => s.(run := Succeed(s.run, v))
    case Threw(code) => s.(run := Catch(s.run, code))
  }

  lemma RunStarts()
    ensures Next(Initial(false), Call) == Called()
    ensures Next(Called(), FeesAnswered(Covered)) == Asking(false)
    ensures Next(Asking(false), Approve("0x1", true)) == Signed()
  {
    assert FirstReady(Signed().signer, [], [], 0).None?;
  }

  lemma RunResolves(r: Receipt)
    requires r.status.Finalized?
    ensures Next(Signed(), Arrive(r)) == Delivered(r)
  {
    var waiting := [Finisher(Deliver(r), 0)];
    assert [] + waiting == waiting;
    assert FirstReady(Signed().signer, [], waiting, 0) == Some(0);
  }

  lemma RunEnds(r: Receipt, o: Outcome)
    ensures Next(Delivered(r), ValueStep(o)) == Ended(r, o)
  {
  }

  // ---------------------------------------------------------------- all of them

  /** Where the split stands when `k` runs are over. */
  ghost predicate Stands(spec: Spec, s: Split, rs: seq<Receipt>, k: nat)
    requires k < |rs|
  {
    && |s.txs| == |rs| && s.processed == Range(k) && s.receipts == rs[..k] && s.submitted == Range(k)
    && (forall i :: 0 <= i < k ==> s.txs[i] == Ended(rs[i], Returned(Undefined)))
    && (forall i :: k <= i < |rs| ==> s.txs[i] == Initial(false))
  }

  /** A step of transaction `k` that its resolver has no part in. */
  lemma PlainStep(spec: Spec, s: Split, k: nat, e: Step, before: State, after: State)
    requires Fits(s) && k < |s.txs| && s.txs[k] == before && before.settled.Open? && InOrder(s.processed, k)
    requires !e.ValueReady? && !e.ValueThrew?
    requires FinishersFit(before.finishers, before.blocks.lookups) && Next(before, e) == after
    requires FinishersFit(after.finishers, after.blocks.lookups)
    requires after.settled.Open? && (before.signer.NotAsked? && after.signer.Asked? ==> e == FeesAnswered(Covered))
    requires e == FeesAnswered(Covered) ==> before.signer.NotAsked? && after.signer.Asked?
    ensures SplitNext(spec, s, k, e)
         == s.(txs := s.txs[k := after], submitted := if e == FeesAnswered(Covered) then s.submitted + [k] else s.submitted)
    ensures Fits(SplitNext(spec, s, k, e))
  {
  }

  /** The run up to the receipt. */
  ghost function Started(s: Split, k: nat, t: State): Split
    requires k < |s.txs|
  {
    s.(txs := s.txs[k := t], submitted := s.submitted + [k])
  }

  lemma UpToTheReceipt(spec: Spec, s: Split, k: nat)
    requires Fits(s) && k < |s.txs| && s.txs[k] == Initial(false) && InOrder(s.processed, k)
    ensures var s1 := SplitNext(spec, s, k, Call);
            Fits(s1) && var s2 := SplitNext(spec, s1, k, FeesAnswered(Covered));
            Fits(s2) && SplitNext(spec, s2, k, Approve("0x1", true)) == Started(s, k, Signed())
            && Fits(Started(s, k, Signed()))
  {
    RunStarts();
    PlainStep(spec, s, k, Call, Initial(false), Called());
    var s1 := s.(txs := s.txs[k := Called()]);
    PlainStep(spec, s1, k, FeesAnswered(Covered), Called(), Asking(false));
    var s2 := Started(s, k, Asking(false));
    assert s1.txs[k := Asking(false)] == s2.txs;
    PlainStep(spec, s2, k, Approve("0x1", true), Asking(false), Signed());
    assert s2.txs[k := Signed()] == Started(s, k, Signed()).txs;
  }

  /** The receipt, which is noted unless it is the last, and the end of the resolver. */
  lemma FromTheReceipt(spec: Spec, s: Split, k: nat, r: Receipt)
    requires Fits(s) && k < |s.txs| && s.txs[k] == Signed() && InOrder(s.processed, k) && r.status.Finalized?
    ensures var s4 := SplitNext(spec, s, k, Arrive(r));
            var inner := k < |s.txs| - 1;
            && Fits(s4)
            && s4.txs == s.txs[k := Delivered(r)] && s4.submitted == s.submitted
            && s4.receipts == (if inner then s.receipts + [r] else s.receipts)
            && s4.processed == (if inner then s.processed + [k] else s.processed)
            && var o := Work(spec, s4, k, r);
               SplitNext(spec, s4, k, ValueReady(Undefined)) == s4.(txs := s.txs[k := Ended(r, o)])
  {
    RunResolves(r);
    var s4 := SplitNext(spec, s, k, Arrive(r));
    assert s4.txs == s.txs[k := Delivered(r)];
    var o := Work(spec, s4, k, r);
    RunEnds(r, o);
    assert s4.txs[k := Ended(r, o)] == s.txs[k := Ended(r, o)];
  }

  ghost function Finish(spec: Spec, s: Split, k: nat, r: Receipt): Split
    requires k < |s.txs|
  {
    var inner := k < |s.txs| - 1;
    Split(s.txs[k := Ended(r, Work(spec, s, k, r))],
          if inner then s.receipts + [r] else s.receipts,
          if inner then s.processed + [k] else s.processed,
          s.submitted)
  }

  lemma {:induction false} SplitAfterOneMore(spec: Spec, n: nat, es: seq<(nat, Step)>, i: nat, e: Step)
    ensures SplitAfter(spec, n, es + [(i, e)]) == SplitNext(spec, SplitAfter(spec, n, es), i, e)
  {
    var all := es + [(i, e)];
    assert all[..|all| - 1] == es && all[|all| - 1] == (i, e);
  }

  function Head(k: nat): seq<(nat, Step)> {
    [(k, Call)] + [(k, FeesAnswered(Covered))] + [(k, Approve("0x1", true))]
  }

  lemma TourHead(spec: Spec, n: nat, es: seq<(nat, Step)>, s: Split, k: nat)
    requires s == SplitAfter(spec, n, es) && k < n
    requires s.txs[k] == Initial(false) && InOrder(s.processed, k)
    ensures SplitAfter(spec, n, es + Head(k)) == Started(s, k, Signed())
  {
    var e1 := es + [(k, Call)];
    var e2 := e1 + [(k, FeesAnswered(Covered))];
    SplitAfterOneMore(spec, n, es, k, Call);
    SplitAfterOneMore(spec, n, e1, k, FeesAnswered(Covered));
    SplitAfterOneMore(spec, n, e2, k, Approve("0x1", true));
    assert es + Head(k) == e2 + [(k, Approve("0x1", true))];
    UpToTheReceipt(spec, s, k);
  }

  lemma TourTail(spec: Spec, n: nat, es: seq<(nat, Step)>, s: Split, k: nat, r: Receipt)
    requires s == SplitAfter(spec, n, es) && k < n && r.status.Finalized?
    requires s.txs[k] == Signed() && InOrder(s.processed, k)
    ensures SplitAfter(spec, n, es + [(k, Arrive(r))] + [(k, ValueReady(Undefined))]) == Finish(spec, s, k, r)
  {
    SplitAfterOneMore(spec, n, es, k, Arrive(r));
    SplitAfterOneMore(spec, n, es + [(k, Arrive(r))], k, ValueReady(Undefined));
    FromTheReceipt(spec, s, k, r);
    WorkUnchanged(spec, s, SplitNext(spec, s, k, Arrive(r)), k, r);
  }

  /** The last resolver is given the receipts of the others only. */
  lemma WorkUnchanged(spec: Spec, s: Split, t: Split, k: nat, r: Receipt)
    requires |t.txs| == |s.txs| && (k < |s.txs| - 1 || t.receipts == s.receipts)
    ensures Work(spec, t, k, r) == Work(spec, s, k, r)
  {
  }

  lemma TourSplits(k: nat, r: Receipt, es: seq<(nat, Step)>)
    ensures es + Tour(k, r) == es + Head(k) + [(k, Arrive(r))] + [(k, ValueReady(Undefined))]
  {
  }

  lemma OneTour(spec: Spec, n: nat, es: seq<(nat, Step)>, s: Split, k: nat, r: Receipt)
    requires s == SplitAfter(spec, n, es) && k < n && r.status.Finalized?
    requires s.txs[k] == Initial(false) && InOrder(s.processed, k)
    ensures SplitAfter(spec, n, es + Tour(k, r)) == Finish(spec, s, k, r).(submitted := s.submitted + [k])
  {
    TourHead(spec, n, es, s, k);
    var s3 := Started(s, k, Signed());
    TourTail(spec, n, es + Head(k), s3, k, r);
    TourSplits(k, r, es);
    WorkUnchanged(spec, s, s3, k, r);
    assert s3.txs[k := Ended(r, Work(spec, s, k, r))] == s.txs[k := Ended(r, Work(spec, s, k, r))];
  }

  lemma StandsNext(spec: Spec, s: Split, rs: seq<Receipt>, k: nat)
    requires k + 1 < |rs| && Stands(spec, s, rs, k)
    ensures Stands(spec, OneMore(spec, s, rs, k), rs, k + 1)
  {
    RangeSucc(k);
    assert rs[..k + 1] == rs[..k] + [rs[k]];
  }

  lemma StandsReady(spec: Spec, s: Split, rs: seq<Receipt>, k: nat)
    requires k < |rs| && Stands(spec, s, rs, k)
    ensures k < |s.txs| && s.txs[k] == Initial(false) && InOrder(s.processed, k)
  {
  }

  ghost function OneMore(spec: Spec, s: Split, rs: seq<Receipt>, k: nat): Split
    requires k < |rs| == |s.txs|
  {
    Finish(spec, s, k, rs[k]).(submitted := s.submitted + [k])
  }

  lemma NextTour(spec: Spec, rs: seq<Receipt>, k: nat, s: Split)
    requires k < |rs| && rs[k].status.Finalized?
    requires s == SplitAfter(spec, |rs|, Tours(rs, k)) && Stands(spec, s, rs, k)
    ensures SplitAfter(spec, |rs|, Tours(rs, k + 1)) == OneMore(spec, s, rs, k)
  {
    StandsReady(spec, s, rs, k);
    OneTour(spec, |rs|, Tours(rs, k), s, k, rs[k]);
  }

  lemma StandsFirst(spec: Spec, rs: seq<Receipt>)
    requires rs != []
    ensures Stands(spec, SplitInitial(|rs|), rs, 0)
  {
  }

  lemma TourStands(spec: Spec, rs: seq<Receipt>, k: nat)
    requires k + 1 < |rs| && rs[k].status.Finalized?
    requires Stands(spec, SplitAfter(spec, |rs|, Tours(rs, k)), rs, k)
    ensures Stands(spec, SplitAfter(spec, |rs|, Tours(rs, k + 1)), rs, k + 1)
  {
    var s := SplitAfter(spec, |rs|, Tours(rs, k));
    NextTour(spec, rs, k, s);
    StandsNext(spec, s, rs, k);
  }

  lemma {:induction false} AfterTours(spec: Spec, rs: seq<Receipt>, k: nat)
    requires AllFinalized(rs) && k < |rs|
    ensures Stands(spec, SplitAfter(spec, |rs|, Tours(rs, k)), rs, k)
  {
    if k == 0 {
      StandsFirst(spec, rs);
    } else {
      AfterTours(spec, rs, k - 1);
      TourStands(spec, rs, k - 1);
    }
  }

  /** Each transaction has been sent and has its receipt, all but the last have succeeded, and the last one has
      succeeded with the value the batch's functions return for the merge of these receipts, or has ended with
      the error they throw. */
  ghost predicate MatchesBatch(spec: Spec, rs: seq<Receipt>, s: Split) {
    && |s.txs| == |rs| > 0
    && s.submitted == Range(|rs|)
    && (forall i :: 0 <= i < |rs| ==> s.txs[i].run.receipt == Some(rs[i]))
    && (forall i :: 0 <= i < |rs| - 1 ==> s.txs[i].run.status.Succeeded?)
    && EndedAs(spec, Merge(rs), s.txs[|rs| - 1].run)
  }

  lemma EndedMeans(r: Receipt, o: Outcome)
    ensures Ended(r, o).run.receipt == Some(r) && EndedWith(Ended(r, o).run, o)
  {
  }

  lemma LastWork(spec: Spec, s: Split, rs: seq<Receipt>)
    requires rs != [] && |s.txs| == |rs| && s.receipts == rs[..|rs| - 1]
    ensures Work(spec, s, |rs| - 1, rs[|rs| - 1]) == Produce(spec, Merge(rs))
  {
    assert rs[..|rs| - 1] + [rs[|rs| - 1]] == rs;
    LastProduces(spec, rs[..|rs| - 1], rs[|rs| - 1]);
  }

  ghost predicate AllEnded(spec: Spec, rs: seq<Receipt>, s: Split) {
    && |s.txs| == |rs| > 0
    && s.submitted == Range(|rs|)
    && (forall i :: 0 <= i < |rs| - 1 ==> s.txs[i] == Ended(rs[i], Returned(Undefined)))
    && s.txs[|rs| - 1] == Ended(rs[|rs| - 1], Produce(spec, Merge(rs)))
  }

  lemma LastEnds(spec: Spec, s: Split, rs: seq<Receipt>)
    requires rs != [] && Stands(spec, s, rs, |rs| - 1)
    ensures AllEnded(spec, rs, OneMore(spec, s, rs, |rs| - 1))
  {
    RangeSucc(|rs| - 1);
    LastWork(spec, s, rs);
    var last := Ended(rs[|rs| - 1], Produce(spec, Merge(rs)));
    assert OneMore(spec, s, rs, |rs| - 1).txs == s.txs[|rs| - 1 := last];
  }

  lemma AllEndedMatches(spec: Spec, rs: seq<Receipt>, s: Split)
    requires AllEnded(spec, rs, s)
    ensures MatchesBatch(spec, rs, s)
  {
    var o := Produce(spec, Merge(rs));
    EndedMeans(rs[|rs| - 1], o);
    ProduceMeans(spec, Merge(rs), o);
    forall i | 0 <= i < |rs| - 1 ensures s.txs[i].run.receipt == Some(rs[i]) && s.txs[i].run.status.Succeeded? {
      EndedMeans(rs[i], Returned(Undefined));
    }
  }

  lemma AllToursEnd(spec: Spec, rs: seq<Receipt>)
    requires AllFinalized(rs) && rs != []
    ensures AllEnded(spec, rs, SplitAfter(spec, |rs|, Tours(rs, |rs|)))
  {
    var n := |rs|;
    AfterTours(spec, rs, n - 1);
    var s := SplitAfter(spec, n, Tours(rs, n - 1));
    NextTour(spec, rs, n - 1, s);
    LastEnds(spec, s, rs);
  }

  /** In that order nothing is refused, whatever the receipts, and the split ends the way the batch would. */
  lemma InOrderMatchesTheBatch(spec: Spec, rs: seq<Receipt>)
    requires AllFinalized(rs) && rs != []
    ensures MatchesBatch(spec, rs, SplitAfter(spec, |rs|, Tours(rs, |rs|)))
  {
    AllToursEnd(spec, rs);
    AllEndedMatches(spec, rs, SplitAfter(spec, |rs|, Tours(rs, |rs|)));
  }
}
