/** `splitTransactions`: n transaction objects that share a list of receipts and a list of processed
    indexes, and refuse to run out of order. Their lives interleave freely. */
module Splitting {
  import opened Common
  import opened Receipts
  import opened Lifecycle
  import opened LifecycleProperties

  datatype Outcome = Returned(value: Value) | Threw(code: ErrorCode)
  datatype Resolver = Plain(value: Value) | Function(f: Receipt -> Outcome)
  datatype Spec = Spec(resolver: Resolver, transformer: Option<Value -> Outcome>)

  /** What `run` makes of the receipt of a resolved submission. */
  function Produce(spec: Spec, receipt: Receipt): Outcome {
    var value := match spec.resolver
                 case Plain(v) => Returned(v)
                 case Function(f) => f(receipt);
    if value.Threw? || spec.transformer.None? then value else spec.transformer.value(value.value)
  }

  /** The outcome of a receipt: a resolver function is given the receipt, and a value it returns goes through the
      transformer, if there is one; an error goes through as it is. A plain value takes the place of what the
      function returns. */
  ghost predicate Applied(spec: Spec, receipt: Receipt, o: Outcome) {
    match spec
    case Spec(Function(f), Some(g)) =>
      (forall v :: f(receipt) == Returned(v) ==> o == g(v)) && (forall code :: f(receipt) == Threw(code) ==> o == Threw(code))
    case Spec(Function(f), None) => o == f(receipt)
    case Spec(Plain(v), Some(g)) => o == g(v)
    case Spec(Plain(v), None) => o == Returned(v)
  }

  lemma ProduceMeans(spec: Spec, receipt: Receipt, o: Outcome)
    ensures Applied(spec, receipt, o) <==> o == Produce(spec, receipt)
  {
    match spec
    case Spec(Function(f), Some(g)) =>
      match f(receipt) {
        case Returned(v) =>
        case Threw(code) =>
      }
    case _ =>
  }

  /** The specification of the last transaction of a split: the batch's, with the receipts merged first. */
  function LastSpec(spec: Spec, receipts: seq<Receipt>): Spec {
    spec.(resolver := Function((r: Receipt) =>
      match spec.resolver
      case Plain(v) => Returned(v)
      case Function(f) => f(Merge(receipts + [r]))))
  }

  datatype Split = Split(txs: seq<State>, receipts: seq<Receipt>, processed: seq<nat>, submitted: seq<nat>)

  function SplitInitial(n: nat): Split {
    Split(seq(n, _ => Initial(false)), [], [], [])
  }

  /** The check each overridden `run` makes before it calls the original one. */
  predicate InOrder(processed: seq<nat>, index: nat) {
    index == 0 || (index <= |processed| && processed[index - 1] == index - 1)
  }

  function Work(spec: Spec, s: Split, i: nat, receipt: Receipt): Outcome {
    if i == |s.txs| - 1 then Produce(LastSpec(spec, s.receipts), receipt) else Returned(Undefined)
  }

  function ValueStep(o: Outcome): Step {
    match o
    case Returned(v) => ValueReady(v)
    case Threw(code) => ValueThrew(code)
  }

  /** The value of a resolver is not up to the outside world. */
  function Actual(spec: Spec, s: Split, i: nat, e: Step): Step
    requires i < |s.txs|
  {
    if (e.ValueReady? || e.ValueThrew?) && s.txs[i].settled.Resolved?
    then ValueStep(Work(spec, s, i, s.txs[i].settled.receipt))
    else e
  }

  ghost predicate Fits(s: Split) {
    forall i :: 0 <= i < |s.txs| ==> FinishersFit(s.txs[i].finishers, s.txs[i].blocks.lookups)
  }

  /** What a step of transaction `i` leaves in the shared lists: every resolver but the last one's notes its
      index and its receipt. */
  function Noted(s: Split, i: nat, wasOpen: bool, wasNotAsked: bool): Split
    requires i < |s.txs|
  {
    var t := s.txs[i];
    var notes := wasOpen && t.settled.Resolved? && i != |s.txs| - 1;
    Split(s.txs,
          if notes then s.receipts + [t.settled.receipt] else s.receipts,
          if notes then s.processed + [i] else s.processed,
          if wasNotAsked && t.signer.Asked? then s.submitted + [i] else s.submitted)
  }

  /** One step of transaction `i`. */
  function SplitNext(spec: Spec, s: Split, i: nat, e: Step): Split
    requires Fits(s)
  {
    if i >= |s.txs| || (e.Call? && !InOrder(s.processed, i)) then s
    else
      var after := Next(s.txs[i], Actual(spec, s, i, e));
      Noted(s.(txs := s.txs[i := after]), i, s.txs[i].settled.Open?, s.txs[i].signer.NotAsked?)
  }

  // ---------------------------------------------------------------- what every state keeps

  ghost predicate Quiet(s: State) {
    s == Initial(false)
  }

  /** A transaction other than the last cannot fail once it is resolved. */
  ghost predicate InnerFits(t: State) {
    t.settled.Resolved? ==> t.run.error.None? && (t.run.result.Some? ==> t.run.result == Some(Undefined))
  }

  /** The last one ends the way the batch's own functions say. */
  ghost predicate LastFits(spec: Spec, receipts: seq<Receipt>, t: State) {
    t.settled.Resolved? && t.run.phase.Done? ==>
      match Produce(LastSpec(spec, receipts), t.settled.receipt)
      case Returned(v) => t.run.error.None? && t.run.result == Some(v)
      case Threw(code) => t.run.error == Some(code) && t.run.result.None?
  }

  ghost predicate Good(t: State) {
    Inv(t) && Recorded(t.run) && !t.batch
  }

  lemma GoodNext(t: State, e: Step)
    requires Good(t)
    ensures Good(Next(t, e))
  {
    NextInv(t, e);
    RecordedNext(t, e);
    BatchKept(t, e);
  }

  ghost predicate TxFits(spec: Spec, s: Split, i: nat)
    requires i < |s.txs| && |s.receipts| == |s.processed|
  {
    var k, t := |s.processed|, s.txs[i];
    && Good(t)
    && (i < k ==> t.settled == Resolved(s.receipts[i]))
    && (i > k ==> Quiet(t))
    && (i == k && i < |s.txs| - 1 ==> !t.settled.Resolved?)
    && (i < |s.submitted| <==> !t.signer.NotAsked?)
    && (if i < |s.txs| - 1 then InnerFits(t) else LastFits(spec, s.receipts, t))
  }

  ghost predicate SplitInv(spec: Spec, s: Split) {
    && Fits(s)
    && |s.receipts| == |s.processed|
    && s.processed == Range(|s.processed|)
    && s.submitted == Range(|s.submitted|)
    && |s.processed| <= (if s.txs == [] then 0 else |s.txs| - 1)
    && |s.processed| <= |s.submitted| <= |s.processed| + 1
    && |s.submitted| <= |s.txs|
    && forall i :: 0 <= i < |s.txs| ==> TxFits(spec, s, i)
  }

  lemma SignerMoves(s: State, e: Step)
    requires Inv(s)
    ensures !s.signer.NotAsked? ==> !Next(s, e).signer.NotAsked?
    ensures s.signer.NotAsked? ==> Next(s, e).signer.NotAsked? || Next(s, e).signer.Asked?
  {
    match e
    case FeesAnswered(a) =>
    case _ =>
  }

  lemma QuietUntilCalled(e: Step)
    requires !e.Call?
    ensures Next(Initial(false), e) == Initial(false)
  {
  }

  lemma SplitInitialInv(spec: Spec, n: nat)
    ensures SplitInv(spec, SplitInitial(n))
  {
    InitialInv(false);
  }

  /** One step of a transaction whose resolver has already run. */
  lemma ResolvedStep(s: State, e: Step)
    requires Inv(s) && s.settled.Resolved?
    ensures Next(s, e).settled == s.settled && Next(s, e).signer == s.signer
    ensures !(s.run.phase.Resolving? && (e.ValueReady? || e.ValueThrew?)) ==> Next(s, e).run == s.run
    ensures s.run.phase.Resolving? && e.ValueReady? ==> Next(s, e).run == Succeed(s.run, e.value)
    ensures s.run.phase.Resolving? && e.ValueThrew? ==> Next(s, e).run == Catch(s.run, e.code)
  {
    match e
    case Arrive(r) =>
    case FetchBlock(i, n) =>
    case LoseBlock(i) =>
    case _ =>
  }

  lemma FlushResolves(s: State)
    requires FinishersFit(s.finishers, s.blocks.lookups)
    requires s.settled.Open? && s.run.error.None? && s.run.result.None?
    ensures Flush(s).settled.Resolved? ==> Flush(s).run == s.run.(receipt := Flush(s).run.receipt, phase := Resolving)
  {
  }

  lemma JustResolved(s: State, e: Step)
    requires Inv(s) && s.settled.Open?
    ensures Next(s, e).settled.Resolved? ==>
              && Next(s, e).run.phase.Resolving? && Next(s, e).run.error.None? && Next(s, e).run.result.None?
              && !s.signer.NotAsked?
  {
    match e
    case Approve(hash, works) => if s.signer.Asked? { FlushResolves(Approving(s, hash, works)); }
    case Arrive(r) => if Listening(s) { ArrivalResolves(s, r); }
    case FetchBlock(i, number) => if Pending(s.blocks, i) { FlushResolves(s.(blocks := Fetch(s.blocks, i, number))); }
    case LoseBlock(i) => if Pending(s.blocks, i) { FlushResolves(s.(blocks := Lose(s.blocks, i))); }
    case _ =>
  }

  lemma ArrivalResolves(s: State, r: Receipt)
    requires Inv(s) && Listening(s) && s.settled.Open?
    ensures OnReceipt(s, r).settled.Resolved? ==>
              var run := OnReceipt(s, r).run; run.phase.Resolving? && run.error.None? && run.result.None?
  {
    match r.status
    case InBlock(hash) => EndResolves(s.(blocks := StartLookup(s.blocks, hash, r.txIndex)), Revert);
    case Finalized(_) => EndResolves(s, Deliver(r));
    case _ =>
  }

  lemma EndResolves(s: State, verdict: Verdict)
    requires FinishersFit(s.finishers, s.blocks.lookups)
    requires s.settled.Open? && s.run.error.None? && s.run.result.None?
    ensures AwaitEnd(s, verdict).settled.Resolved? ==>
              var run := AwaitEnd(s, verdict).run; run.phase.Resolving? && run.error.None? && run.result.None?
  {
    FlushResolves(s.(unsubscribing := true, finishers := s.finishers + [Finisher(verdict, |s.blocks.lookups|)]));
  }

  lemma SplitNextInv(spec: Spec, s: Split, i: nat, e: Step)
    requires SplitInv(spec, s)
    ensures SplitInv(spec, SplitNext(spec, s, i, e))
  {
    if i < |s.txs| && !(e.Call? && !InOrder(s.processed, i)) {
      var k := |s.processed|;
      assert TxFits(spec, s, i);
      if i > k {
        QuietUntilCalled(e);
        assert SplitNext(spec, s, i, e).txs == s.txs;
      } else if i == k {
        FrontStep(spec, s, e);
      } else {
        BehindStep(spec, s, i, e);
      }
    }
  }

  /** A step of a transaction that has already noted its receipt. */
  lemma BehindStep(spec: Spec, s: Split, i: nat, e: Step)
    requires SplitInv(spec, s) && i < |s.processed| && i < |s.txs| && InOrder(s.processed, i)
    ensures SplitInv(spec, SplitNext(spec, s, i, e))
  {
    assert TxFits(spec, s, i);
    var after := Next(s.txs[i], Actual(spec, s, i, e));
    BehindTx(s.txs[i], Actual(spec, s, i, e));
    var t := s.(txs := s.txs[i := after]);
    assert SplitNext(spec, s, i, e) == t;
    forall j | 0 <= j < |t.txs| ensures TxFits(spec, t, j) {
      if j != i {
        OthersKept(spec, s, t, j);
      }
    }
  }

  lemma BehindTx(t: State, e: Step)
    requires Good(t) && t.settled.Resolved? && InnerFits(t)
    requires e.ValueReady? || e.ValueThrew? ==> e == ValueReady(Undefined)
    ensures var after := Next(t, e);
            Good(after) && InnerFits(after) && after.settled == t.settled && after.signer == t.signer
  {
    GoodNext(t, e);
    ResolvedStep(t, e);
  }

  /** A step of the first transaction that has not noted its receipt: the only one that can be running
      without having been resolved. */
  lemma FrontStep(spec: Spec, s: Split, e: Step)
    requires SplitInv(spec, s) && |s.processed| < |s.txs| && InOrder(s.processed, |s.processed|)
    ensures SplitInv(spec, SplitNext(spec, s, |s.processed|, e))
  {
    var k := |s.processed|;
    assert TxFits(spec, s, k);
    if k == |s.txs| - 1 {
      LastStep(spec, s, e);
    } else {
      FrontTx(s.txs[k], e);
      var after := Next(s.txs[k], e);
      if s.txs[k].settled.Open? && after.settled.Resolved? {
        NotedStep(spec, s, after);
      } else {
        UnnotedStep(spec, s, after);
      }
    }
  }

  lemma NotedStep(spec: Spec, s: Split, after: State)
    requires SplitInv(spec, s) && |s.processed| < |s.txs| - 1 && !s.txs[|s.processed|].signer.NotAsked?
    requires Good(after) && InnerFits(after) && after.settled.Resolved? && !after.signer.NotAsked?
    ensures var k := |s.processed|;
            SplitInv(spec, s.(txs := s.txs[k := after], processed := s.processed + [k],
                              receipts := s.receipts + [after.settled.receipt]))
  {
    var k := |s.processed|;
    RangeSucc(k);
    assert TxFits(spec, s, k);
    var t := s.(txs := s.txs[k := after], processed := s.processed + [k],
                receipts := s.receipts + [after.settled.receipt]);
    forall j | 0 <= j < |t.txs| ensures TxFits(spec, t, j) {
      assert TxFits(spec, s, j);
    }
  }

  /** What a step of another transaction must leave alone. */
  lemma OthersKept(spec: Spec, s: Split, t: Split, j: nat)
    requires j < |s.txs| == |t.txs| && |s.receipts| == |s.processed| && TxFits(spec, s, j)
    requires t.txs[j] == s.txs[j] && t.receipts == s.receipts && t.processed == s.processed
    requires j < |t.submitted| <==> j < |s.submitted|
    ensures TxFits(spec, t, j)
  {
  }

  /** The front transaction moves on; `sent` lists what has been sent by then. */
  lemma FrontMoves(spec: Spec, s: Split, after: State, sent: seq<nat>)
    requires SplitInv(spec, s) && |s.processed| < |s.txs| && Good(after)
    requires if |s.processed| < |s.txs| - 1 then InnerFits(after) && !after.settled.Resolved?
             else LastFits(spec, s.receipts, after)
    requires sent == Range(|sent|) && |s.submitted| <= |sent|
    requires |sent| == if after.signer.NotAsked? then |s.processed| else |s.processed| + 1
    ensures SplitInv(spec, s.(txs := s.txs[|s.processed| := after], submitted := sent))
  {
    var k := |s.processed|;
    var t := s.(txs := s.txs[k := after], submitted := sent);
    forall j | 0 <= j < |t.txs| ensures TxFits(spec, t, j) {
      if j != k {
        OthersKept(spec, s, t, j);
      }
    }
  }

  lemma UnnotedStep(spec: Spec, s: Split, after: State)
    requires SplitInv(spec, s) && |s.processed| < |s.txs| && Good(after)
    requires if |s.processed| < |s.txs| - 1 then InnerFits(after) && !after.settled.Resolved?
             else LastFits(spec, s.receipts, after)
    requires var before := s.txs[|s.processed|];
             && (before.signer.NotAsked? ==> after.signer.NotAsked? || after.signer.Asked?)
             && (!before.signer.NotAsked? ==> !after.signer.NotAsked?)
    ensures var k := |s.processed|;
            var sent := s.txs[k].signer.NotAsked? && after.signer.Asked?;
            SplitInv(spec, s.(txs := s.txs[k := after],
                              submitted := if sent then s.submitted + [k] else s.submitted))
  {
    var k := |s.processed|;
    assert TxFits(spec, s, k);
    RangeSucc(|s.submitted|);
    var sent := s.txs[k].signer.NotAsked? && after.signer.Asked?;
    FrontMoves(spec, s, after, if sent then s.submitted + [k] else s.submitted);
  }

  lemma FrontTx(t: State, e: Step)
    requires Good(t) && !t.settled.Resolved?
    ensures var after := Next(t, e);
            && Good(after) && InnerFits(after)
            && (after.settled.Resolved? ==> t.settled.Open? && !t.signer.NotAsked?)
            && (t.signer.NotAsked? ==> after.signer.NotAsked? || after.signer.Asked?)
            && (!t.signer.NotAsked? ==> !after.signer.NotAsked?)
  {
    GoodNext(t, e);
    SignerMoves(t, e);
    if Next(t, e).settled.Resolved? {
      if !t.settled.Open? {
        SettledOnce(t, e);
      } else {
        JustResolved(t, e);
      }
    }
  }

  lemma LastStep(spec: Spec, s: Split, e: Step)
    requires SplitInv(spec, s) && |s.processed| == |s.txs| - 1 && InOrder(s.processed, |s.processed|)
    ensures SplitInv(spec, SplitNext(spec, s, |s.processed|, e))
  {
    var k := |s.processed|;
    assert TxFits(spec, s, k);
    var a := Actual(spec, s, k, e);
    LastTx(spec, s.receipts, s.txs[k], a);
    UnnotedStep(spec, s, Next(s.txs[k], a));
  }

  lemma LastTx(spec: Spec, receipts: seq<Receipt>, t: State, e: Step)
    requires Good(t) && LastFits(spec, receipts, t)
    requires (e.ValueReady? || e.ValueThrew?) && t.settled.Resolved? ==>
               e == ValueStep(Produce(LastSpec(spec, receipts), t.settled.receipt))
    ensures var after := Next(t, e);
            && Good(after) && LastFits(spec, receipts, after)
            && (t.signer.NotAsked? ==> after.signer.NotAsked? || after.signer.Asked?)
            && (!t.signer.NotAsked? ==> !after.signer.NotAsked?)
  {
    GoodNext(t, e);
    SignerMoves(t, e);
    if t.settled.Resolved? {
      ResolvedStep(t, e);
    } else if t.settled.Open? && Next(t, e).settled.Resolved? {
      JustResolved(t, e);
    } else {
      assert t.settled.Thrown? ==> Next(t, e).settled == t.settled by {
        if t.settled.Thrown? {
          SettledOnce(t, e);
        }
      }
    }
  }

  /** The state after any schedule of steps. */
  ghost function SplitAfter(spec: Spec, n: nat, es: seq<(nat, Step)>): (s: Split)
    ensures SplitInv(spec, s) && |s.txs| == n
    decreases |es|
  {
    if es == [] then SplitInitialInv(spec, n); SplitInitial(n)
    else
      var s := SplitAfter(spec, n, es[..|es| - 1]);
      var (i, e) := es[|es| - 1];
      SplitNextInv(spec, s, i, e);
      SplitNext(spec, s, i, e)
  }

  // ---------------------------------------------------------------- order

  /** Whatever is called when, and however each run goes: the processed indexes are 0, 1, .., k - 1, the receipts
      are those of these k transactions in order, and the transactions sent to the chain are the first m, each
      sent once, with m at most one ahead of k. */
  lemma AlwaysInOrder(spec: Spec, n: nat, es: seq<(nat, Step)>)
    ensures var s := SplitAfter(spec, n, es);
            && s.processed == Range(|s.processed|)
            && |s.receipts| == |s.processed|
            && (forall i :: 0 <= i < |s.receipts| ==> s.txs[i].run.receipt == Some(s.receipts[i]))
            && s.submitted == Range(|s.submitted|)
            && |s.processed| <= |s.submitted| <= |s.processed| + 1
            && (forall i :: 0 <= i < n ==> (i in s.submitted <==> !s.txs[i].signer.NotAsked?))
  {
    var s := SplitAfter(spec, n, es);
    forall i | 0 <= i < |s.receipts| ensures s.txs[i].run.receipt == Some(s.receipts[i]) {
      assert TxFits(spec, s, i);
    }
    forall i | 0 <= i < n ensures i in s.submitted <==> !s.txs[i].signer.NotAsked? {
      assert TxFits(spec, s, i);
      assert i < |s.submitted| ==> s.submitted[i] == i;
    }
  }

  ghost predicate EndedBadly(t: State) {
    t.run.hasRun && !t.run.status.Succeeded?
  }

  lemma BadlyMeans(t: State)
    requires Good(t) && t.run.hasRun
    ensures t.run.status.Succeeded? <==> t.settled.Resolved? && t.run.error.None?
    ensures t.run.phase.Done?
  {
  }

  /** A transaction that ended badly has ended badly for good. */
  lemma BadlyForGood(t: State, e: Step)
    requires Good(t) && EndedBadly(t)
    ensures EndedBadly(Next(t, e))
  {
    GoodNext(t, e);
    BadlyMeans(t);
    BadlyMeans(Next(t, e));
    if !t.settled.Open? {
      SettledOnce(t, e);
    }
  }

  lemma NothingAfterAFailure(spec: Spec, s: Split, i: nat, j: nat)
    requires SplitInv(spec, s) && i < j < |s.txs| && EndedBadly(s.txs[i])
    ensures Quiet(s.txs[j]) && j !in s.submitted
  {
    assert TxFits(spec, s, i) && TxFits(spec, s, j);
    BadlyMeans(s.txs[i]);
  }

  lemma {:induction false} StaysBad(spec: Spec, n: nat, es: seq<(nat, Step)>, more: seq<(nat, Step)>, i: nat)
    requires i < n && EndedBadly(SplitAfter(spec, n, es).txs[i])
    ensures EndedBadly(SplitAfter(spec, n, es + more).txs[i])
    decreases |more|
  {
    if more == [] {
      assert es + more == es;
    } else {
      var less := more[..|more| - 1];
      StaysBad(spec, n, es, less, i);
      var all := es + more;
      assert all[..|all| - 1] == es + less;
      var (j, e) := all[|all| - 1];
      BadStep(spec, SplitAfter(spec, n, es + less), j, e, i);
    }
  }

  lemma BadStep(spec: Spec, s: Split, j: nat, e: Step, i: nat)
    requires SplitInv(spec, s) && i < |s.txs| && EndedBadly(s.txs[i])
    ensures EndedBadly(SplitNext(spec, s, j, e).txs[i])
  {
    assert TxFits(spec, s, i);
    if i == j {
      BadlyForGood(s.txs[i], Actual(spec, s, i, e));
    }
  }

  /** A call of a transaction that has run changes nothing, in order or not. */
  lemma RunAgainChangesNothing(spec: Spec, s: Split, i: nat)
    requires SplitInv(spec, s) && i < |s.txs| && s.txs[i].run.hasRun
    ensures SplitNext(spec, s, i, Call) == s
  {
    assert Next(s.txs[i], Call) == s.txs[i];
    assert s.txs[i := s.txs[i]] == s.txs;
  }

  /** Once one transaction has ended in anything but success, no later one is started or sent, ever. */
  lemma FailureStopsTheRest(spec: Spec, n: nat, es: seq<(nat, Step)>, more: seq<(nat, Step)>, i: nat, j: nat)
    requires i < j < n && EndedBadly(SplitAfter(spec, n, es).txs[i])
    ensures var s := SplitAfter(spec, n, es + more); Quiet(s.txs[j]) && j !in s.submitted
  {
    StaysBad(spec, n, es, more, i);
    NothingAfterAFailure(spec, SplitAfter(spec, n, es + more), i, j);
  }

  /** A transaction whose predecessors all succeeded is not refused: its call gets as far as the fee check. */
  lemma InOrderIsNeverRefused(spec: Spec, n: nat, es: seq<(nat, Step)>, i: nat)
    requires i < n
    requires var s := SplitAfter(spec, n, es);
             && (forall j :: 0 <= j < i ==> s.txs[j].run.status.Succeeded?)
             && s.txs[i].run.phase.NotStarted?
    ensures SplitNext(spec, SplitAfter(spec, n, es), i, Call).txs[i].run.phase.CheckingFees?
  {
    var s := SplitAfter(spec, n, es);
    assert TxFits(spec, s, i);
    if i > 0 {
      assert TxFits(spec, s, i - 1);
      TerminalMeansDone(s.txs[i - 1]);
      BadlyMeans(s.txs[i - 1]);
    }
  }

  /** Out of order it is refused, exactly when some predecessor has not come as far as its resolver. */
  lemma RefusedExactly(spec: Spec, n: nat, es: seq<(nat, Step)>, i: nat)
    requires i < n
    ensures var s := SplitAfter(spec, n, es);
            InOrder(s.processed, i) <==> forall j :: 0 <= j < i ==> s.txs[j].settled.Resolved?
  {
    var s := SplitAfter(spec, n, es);
    if i > 0 {
      assert TxFits(spec, s, i - 1);
      if i <= |s.processed| {
        forall j | 0 <= j < i ensures s.txs[j].settled.Resolved? {
          assert TxFits(spec, s, j);
        }
      } else {
        assert !s.txs[i - 1].settled.Resolved?;
      }
    }
  }

  // ---------------------------------------------------------------- the result

  lemma LastProduces(spec: Spec, receipts: seq<Receipt>, r: Receipt)
    ensures Produce(LastSpec(spec, receipts), r) == Produce(spec, Merge(receipts + [r]))
  {
  }

  ghost function ReceiptsOf(txs: seq<State>): (rs: seq<Receipt>)
    requires forall i :: 0 <= i < |txs| ==> txs[i].run.receipt.Some?
    ensures |rs| == |txs|
  {
    seq(|txs|, i requires 0 <= i < |txs| => txs[i].run.receipt.value)
  }

  /** A run that ended with the outcome of this receipt. */
  ghost predicate EndedAs(spec: Spec, receipt: Receipt, run: Run) {
    exists o :: Applied(spec, receipt, o) && EndedWith(run, o)
  }

  /** A run that ended with this outcome. */
  ghost predicate EndedWith(run: Run, o: Outcome) {
    match o
    case Returned(v) => run.status.Succeeded? && run.error.None? && run.result == Some(v)
    case Threw(code) => run.status == StatusFor(code) && run.error == Some(code) && run.result.None?
  }

  /** All transactions have resolved, and the last one has ended with what the batch's own resolver and transformer
      make of the merge of exactly their receipts in batch order. */
  ghost predicate SplitOutcome(spec: Spec, txs: seq<State>) {
    && txs != []
    && (forall i :: 0 <= i < |txs| ==> txs[i].settled.Resolved? && txs[i].run.receipt.Some?)
    && EndedAs(spec, Merge(ReceiptsOf(txs)), txs[|txs| - 1].run)
  }

  /** The same with a result. */
  ghost predicate SplitResult(spec: Spec, txs: seq<State>) {
    && txs != []
    && (forall i :: 0 <= i < |txs| ==> txs[i].settled.Resolved? && txs[i].run.receipt.Some?)
    && txs[|txs| - 1].run.result.Some?
    && Applied(spec, Merge(ReceiptsOf(txs)), Returned(txs[|txs| - 1].run.result.value))
  }

  /** Resolved, and its resolver and transformer over. */
  ghost predicate Finished(t: State) {
    t.settled.Resolved? && t.run.hasRun
  }

  lemma SuccessIsFinished(t: State)
    requires Good(t) && t.run.status.Succeeded?
    ensures Finished(t) && t.run.error.None? && t.run.result.Some?
  {
    TerminalMeansDone(t);
    BadlyMeans(t);
  }

  lemma LastEnded(spec: Spec, s: Split)
    requires SplitInv(spec, s) && s.txs != [] && Finished(s.txs[|s.txs| - 1])
    ensures |s.processed| == |s.txs| - 1
    ensures var last := s.txs[|s.txs| - 1];
            && last.run.receipt == Some(last.settled.receipt)
            && EndedWith(last.run, Produce(LastSpec(spec, s.receipts), last.settled.receipt))
  {
    var last := s.txs[|s.txs| - 1];
    assert TxFits(spec, s, |s.txs| - 1);
    BadlyMeans(last);
    ErrorChoosesStatus(last);
  }

  lemma ErrorChoosesStatus(t: State)
    requires Good(t) && Finished(t)
    ensures t.run.receipt == Some(t.settled.receipt)
    ensures t.run.error.Some? ==> t.run.status == StatusFor(t.run.error.value)
  {
  }

  lemma ReceiptsInOrder(spec: Spec, s: Split)
    requires SplitInv(spec, s) && |s.processed| == |s.txs| - 1
    requires var last := s.txs[|s.txs| - 1]; last.settled.Resolved? && last.run.receipt == Some(last.settled.receipt)
    ensures forall i :: 0 <= i < |s.txs| ==> s.txs[i].settled.Resolved? && s.txs[i].run.receipt.Some?
    ensures ReceiptsOf(s.txs) == s.receipts + [s.txs[|s.txs| - 1].settled.receipt]
  {
    forall i | 0 <= i < |s.processed|
      ensures s.txs[i].settled.Resolved? && s.txs[i].run.receipt == Some(s.receipts[i])
    {
      assert TxFits(spec, s, i);
    }
  }

  /** Whenever the last transaction is over, its promise having resolved, it has ended the way the batch would:
      with the value the batch's functions return for the merged receipts, or with the error they throw. */
  lemma SplitEndsAsTheBatch(spec: Spec, n: nat, es: seq<(nat, Step)>)
    requires n > 0
    ensures Finished(SplitAfter(spec, n, es).txs[n - 1]) ==> SplitOutcome(spec, SplitAfter(spec, n, es).txs)
  {
    var s := SplitAfter(spec, n, es);
    if Finished(s.txs[n - 1]) {
      LastEnded(spec, s);
      ReceiptsInOrder(spec, s);
      LastProduces(spec, s.receipts, s.txs[n - 1].settled.receipt);
      var merged := Merge(ReceiptsOf(s.txs));
      ProduceMeans(spec, merged, Produce(spec, merged));
      assert EndedAs(spec, merged, s.txs[n - 1].run);
    }
  }

  /** Written out for a batch with a resolver function and a transformer: it ends with what the transformer makes of
      the value the function returns for the merged receipts, or with the error either of them throws. */
  lemma ResolverThenTransformer(f: Receipt -> Outcome, g: Value -> Outcome, n: nat, es: seq<(nat, Step)>)
    requires n > 0
    ensures var txs := SplitAfter(Spec(Function(f), Some(g)), n, es).txs;
            Finished(txs[n - 1]) ==>
              && (forall i :: 0 <= i < n ==> txs[i].run.receipt.Some?)
              && match f(Merge(ReceiptsOf(txs)))
                 case Threw(code) => EndedWith(txs[n - 1].run, Threw(code))
                 case Returned(v) => EndedWith(txs[n - 1].run, g(v))
  {
    SplitEndsAsTheBatch(Spec(Function(f), Some(g)), n, es);
  }

  /** The result of every transaction but the last is nothing. */
  lemma InnerResultsAreVoid(spec: Spec, n: nat, es: seq<(nat, Step)>, i: nat)
    requires i + 1 < n
    ensures var t := SplitAfter(spec, n, es).txs[i];
            Finished(t) ==> t.run.status.Succeeded? && t.run.result == Some(Undefined)
  {
    var s := SplitAfter(spec, n, es);
    assert TxFits(spec, s, i);
    if Finished(s.txs[i]) {
      BadlyMeans(s.txs[i]);
      SuccessIsFinished(s.txs[i]);
    }
  }

  /** In particular whenever the last transaction succeeds. */
  lemma SplitRefinesBatch(spec: Spec, n: nat, es: seq<(nat, Step)>)
    requires n > 0 && SplitAfter(spec, n, es).txs[n - 1].run.status.Succeeded?
    ensures SplitResult(spec, SplitAfter(spec, n, es).txs)
  {
    var s := SplitAfter(spec, n, es);
    assert TxFits(spec, s, n - 1);
    SuccessIsFinished(s.txs[n - 1]);
    SplitEndsAsTheBatch(spec, n, es);
  }

  /** The merge of the receipts of all transactions, once each has one. */
  ghost function MergedReceipt(txs: seq<State>): Option<Receipt> {
    if txs != [] && forall i :: 0 <= i < |txs| ==> txs[i].run.receipt.Some? then Some(Merge(ReceiptsOf(txs))) else None
  }

  /** And the batch: after any run of it that resolves with that merge, what its functions make of it ends the run
      with the same status, error and result. */
  lemma BatchGivesTheSame(spec: Spec, n: nat, es: seq<(nat, Step)>, bs: seq<Step>, o: Outcome)
    requires n > 0
    ensures var txs, batch := SplitAfter(spec, n, es).txs, After(true, bs);
            && Finished(txs[n - 1]) && batch.run.phase.Resolving? && batch.settled.Resolved?
            && MergedReceipt(txs) == Some(batch.settled.receipt) && Applied(spec, batch.settled.receipt, o)
            ==> SameEnd(After(true, bs + [ValueStep(o)]).run, txs[n - 1].run)
  {
    var txs, batch := SplitAfter(spec, n, es).txs, After(true, bs);
    if Finished(txs[n - 1]) && batch.run.phase.Resolving? {
      SplitEndsAsTheBatch(spec, n, es);
      AfterOneMore(true, bs, ValueStep(o));
      AfterInv(true, bs);
      ResolvingEnds(batch, o);
      if Applied(spec, Merge(ReceiptsOf(txs)), o) {
        var q :| Applied(spec, Merge(ReceiptsOf(txs)), q) && EndedWith(txs[n - 1].run, q);
        ProduceMeans(spec, Merge(ReceiptsOf(txs)), o);
        ProduceMeans(spec, Merge(ReceiptsOf(txs)), q);
        OneOutcomeOneEnd(Next(batch, ValueStep(o)).run, txs[n - 1].run, o);
      }
    }
  }

  ghost predicate SameEnd(a: Run, b: Run) {
    a.status == b.status && a.error == b.error && a.result == b.result
  }

  lemma OneOutcomeOneEnd(a: Run, b: Run, o: Outcome)
    requires EndedWith(a, o) && EndedWith(b, o)
    ensures SameEnd(a, b)
  {
  }

  lemma ResolvingEnds(s: State, o: Outcome)
    requires Inv(s) && s.run.phase.Resolving?
    ensures EndedWith(Next(s, ValueStep(o)).run, o)
  {
  }

  /** Every finalized receipt that tells of no interruption resolves some run of the batch. */
  lemma BatchRunReaches(r: Receipt)
    requires r.status.Finalized? && !Emitted(r, BatchInterrupted)
    ensures var b := After(true, Opening() + [Approve("0x1", true)] + [Arrive(r)]);
            b.run.phase.Resolving? && b.settled == Resolved(r)
  {
    OpeningAsks(true);
    AfterTwoMore(true, Opening(), Approve("0x1", true), Arrive(r));
    var s := Approving(Asking(true), "0x1", true);
    assert Next(Asking(true), Approve("0x1", true)) == s;
    var waiting := [Finisher(Deliver(r), 0)];
    assert [] + waiting == waiting;
    assert FirstReady(s.signer, [], waiting, 0) == Some(0);
  }

  /** The result depends on the receipts alone, not on the schedule that led to them. */
  lemma ScheduleDoesNotMatter(spec: Spec, n: nat, es: seq<(nat, Step)>, fs: seq<(nat, Step)>)
    requires n > 0
    requires var s, t := SplitAfter(spec, n, es), SplitAfter(spec, n, fs);
             && s.txs[n - 1].run.status.Succeeded? && t.txs[n - 1].run.status.Succeeded?
             && forall i :: 0 <= i < n ==> s.txs[i].run.receipt == t.txs[i].run.receipt
    ensures SplitAfter(spec, n, es).txs[n - 1].run.result == SplitAfter(spec, n, fs).txs[n - 1].run.result
  {
    SplitRefinesBatch(spec, n, es);
    SplitRefinesBatch(spec, n, fs);
    OneResult(spec, SplitAfter(spec, n, es).txs, SplitAfter(spec, n, fs).txs);
  }

  lemma OneResult(spec: Spec, a: seq<State>, b: seq<State>)
    requires SplitResult(spec, a) && SplitResult(spec, b) && |a| == |b|
    requires forall i :: 0 <= i < |a| ==> a[i].run.receipt == b[i].run.receipt
    ensures a[|a| - 1].run.result == b[|b| - 1].run.result
  {
    assert ReceiptsOf(a) == ReceiptsOf(b);
    ProduceMeans(spec, Merge(ReceiptsOf(a)), Returned(a[|a| - 1].run.result.value));
    ProduceMeans(spec, Merge(ReceiptsOf(a)), Returned(b[|b| - 1].run.result.value));
  }
}
