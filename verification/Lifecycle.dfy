/** The life of one transaction object: `run`, the submission promise it awaits, and everything the
    outside world can do in between. `Next` is the specification, one environment step at a time;
    the class in TransactionObject.dfy performs the same steps on the object's fields. */
module Lifecycle {
  import opened Common
  import opened Receipts
  import Fees

  datatype Status = Idle | Unapproved | Running | Rejected | Succeeded | Failed | Aborted {
    predicate Terminal() {
      Rejected? || Succeeded? || Failed? || Aborted?
    }
  }

  /** What a resolver or a transformer may return. */
  datatype Value = Undefined | Data(content: string) | Many(values: seq<Value>)

  /** Where the asynchronous `run` is suspended. */
  datatype Phase = NotStarted | CheckingFees | Submitted | Resolving | Done

  /** The promise of `signAndSend`. Approval also runs every pending `unsub()`, which may throw. */
  datatype Signer = NotAsked | Asked | Approved(unsubWorks: bool) | Refused

  /** A block lookup started by one in-block receipt. */
  datatype Answer = Waiting | Fetched(number: nat) | Broken
  datatype Lookup = Lookup(hash: string, txIndex: nat, answer: Answer)

  /** What a completing receipt asks for once its lookup and its unsubscription are over. It waits for
      the newest of the lookups started so far: number `started - 1`, if there is one. */
  datatype Verdict = Revert | Deliver(receipt: Receipt)
  datatype Finisher = Finisher(verdict: Verdict, started: nat)

  /** The submission promise. */
  datatype Settlement = Open | Resolved(receipt: Receipt) | Thrown(code: ErrorCode)

  /** The answer of `assertFeesCovered`, and whether the covered transaction can be composed and sent at all. */
  datatype FeesAnswer = Covered | CoveredButUnsendable | NotCovered(fault: Fees.Fault) | FeesUnavailable

  datatype Step =
    | Call
    | FeesAnswered(answer: FeesAnswer)
    | Approve(hash: string, unsubWorks: bool)
    | Refuse(cancelled: bool)
    | Arrive(receipt: Receipt)
    | FetchBlock(lookup: nat, number: nat)
    | LoseBlock(lookup: nat)
    | ValueReady(value: Value)
    | ValueThrew(code: ErrorCode)

  /** The fields `run` itself writes, and where it is suspended.
      `history` only records the values given to `status`. */
  datatype Run = Run(
    phase: Phase,
    status: Status,
    emitted: seq<Status>,
    error: Option<ErrorCode>,
    receipt: Option<Receipt>,
    txHash: Option<string>,
    hasRun: bool,
    result: Option<Value>,
    history: seq<Status>
  )

  /** The block lookups and the fields their answers are written to.
      `completed` only records the lookups in the order they were answered. */
  datatype Blocks = Blocks(
    lookups: seq<Lookup>,
    blockHash: Option<string>,
    blockNumber: Option<nat>,
    txIndex: Option<nat>,
    completed: seq<nat>
  )

  datatype State = State(
    batch: bool,
    run: Run,
    blocks: Blocks,
    signer: Signer,
    finishers: seq<Finisher>,
    unsubscribing: bool,
    settled: Settlement
  )

  function Fresh(phase: Phase): Run {
    Run(phase, Idle, [], None, None, None, false, None, [Idle])
  }

  function Initial(batch: bool): State {
    State(batch, Fresh(NotStarted), Blocks([], None, None, None, []), NotAsked, [], false, Open)
  }

  // ---------------------------------------------------------------- the steps

  function WithStatus(r: Run, status: Status): Run {
    r.(status := status,
       history := r.history + [status],
       emitted := if status == Idle then r.emitted else r.emitted + [status])
  }

  function StatusFor(code: ErrorCode): Status {
    match code
    case TransactionAborted => Aborted
    case TransactionRejectedByUser => Rejected
    case _ => Failed
  }

  function CodeFor(fault: Fees.Fault): ErrorCode {
    match fault
    case BalanceTooSmall => InsufficientBalance
    case _ => UnmetPrerequisite
  }

  /** The `catch` and `finally` blocks of `run`. */
  function Catch(r: Run, code: ErrorCode): Run {
    WithStatus(r.(error := Some(code)), StatusFor(code)).(hasRun := true, phase := Done)
  }

  /** How deciding the promise may touch the run: not its status, or by way of `catch`. */
  ghost predicate SettledRun(s: State, t: State) {
    if s.settled.Open? && t.settled.Thrown? then t.run == Catch(s.run, t.settled.code)
    else t.run.history == s.run.history && t.run.emitted == s.run.emitted && t.run.status == s.run.status
  }

  function Resolve(s: State, receipt: Receipt): (t: State)
    ensures t == s.(run := t.run, settled := t.settled)
    ensures !s.settled.Open? ==> t == s
    ensures SettledRun(s, t)
  {
    if s.settled.Open?
    then s.(settled := Resolved(receipt), run := s.run.(receipt := Some(receipt), phase := Resolving))
    else s
  }

  function Reject(s: State, code: ErrorCode): (t: State)
    ensures t == s.(run := t.run, settled := t.settled)
    ensures !s.settled.Open? ==> t == s
    ensures SettledRun(s, t)
  {
    if s.settled.Open? then s.(settled := Thrown(code), run := Catch(s.run, code)) else s
  }

  /** `handleExtrinsicSuccess` and `handleExtrinsicFailure`; a batch looks for an interruption first. */
  function Judge(s: State, verdict: Verdict): (t: State)
    ensures t == s.(run := t.run, settled := t.settled)
    ensures !s.settled.Open? ==> t == s
    ensures SettledRun(s, t)
  {
    match verdict
    case Revert => Reject(s, TransactionReverted)
    case Deliver(receipt) =>
      if s.batch && Emitted(receipt, BatchInterrupted) then Reject(s, TransactionReverted)
      else Resolve(s, receipt)
  }

  datatype Readiness = Wait | Go | Break

  predicate LookupOver(lookups: seq<Lookup>, started: nat)
    requires started <= |lookups|
  {
    started == 0 || lookups[started - 1].answer.Fetched?
  }

  /** `Promise.all` over the lookup and the unsubscription: broken as soon as one of them is. */
  function Readied(signer: Signer, lookups: seq<Lookup>, started: nat): Readiness
    requires started <= |lookups|
  {
    if signer == Approved(false) || signer.Refused? then Break
    else if started > 0 && lookups[started - 1].answer.Broken? then Break
    else if signer == Approved(true) && LookupOver(lookups, started) then Go
    else Wait
  }

  ghost predicate FinishersFit(finishers: seq<Finisher>, lookups: seq<Lookup>) {
    forall k :: 0 <= k < |finishers| ==> finishers[k].started <= |lookups|
  }

  /** The first of the finishers from `k` on that need not wait any longer. */
  function FirstReady(signer: Signer, lookups: seq<Lookup>, finishers: seq<Finisher>, k: nat): (r: Option<nat>)
    requires k <= |finishers| && FinishersFit(finishers, lookups)
    ensures r.Some? ==> k <= r.value < |finishers|
    ensures r.Some? ==> !Readied(signer, lookups, finishers[r.value].started).Wait?
    ensures r.Some? ==> forall i :: k <= i < r.value ==> Readied(signer, lookups, finishers[i].started).Wait?
    ensures r.None? ==> forall i :: k <= i < |finishers| ==> Readied(signer, lookups, finishers[i].started).Wait?
    decreases |finishers| - k
  {
    if k == |finishers| then None
    else if !Readied(signer, lookups, finishers[k].started).Wait? then Some(k)
    else FirstReady(signer, lookups, finishers, k + 1)
  }

  /** Lets the first finisher that is ready decide. Once the promise is settled the others change nothing. */
  function Flush(s: State): (t: State)
    requires FinishersFit(s.finishers, s.blocks.lookups)
    ensures t == s.(run := t.run, settled := t.settled)
    ensures !s.settled.Open? ==> t == s
    ensures SettledRun(s, t)
  {
    match FirstReady(s.signer, s.blocks.lookups, s.finishers, 0)
    case None => s
    case Some(k) =>
      if Readied(s.signer, s.blocks.lookups, s.finishers[k].started).Go? then Judge(s, s.finishers[k].verdict)
      else Reject(s, Foreign)
  }

  /** Receipts stop once an approved subscription has been cancelled. */
  predicate Listening(s: State) {
    || s.signer.Asked?
    || (s.signer.Approved? && !(s.unsubscribing && s.signer.unsubWorks))
  }

  function StartLookup(b: Blocks, hash: string, txIndex: nat): Blocks {
    b.(lookups := b.lookups + [Lookup(hash, txIndex, Waiting)])
  }

  function AwaitEnd(s: State, verdict: Verdict): (t: State)
    requires FinishersFit(s.finishers, s.blocks.lookups)
    ensures SettledRun(s, t) && t.signer == s.signer && t.batch == s.batch && t.blocks == s.blocks
    ensures t.finishers == s.finishers + [Finisher(verdict, |s.blocks.lookups|)]
    ensures !s.settled.Open? ==> t.run == s.run && t.settled == s.settled
  {
    Flush(s.(unsubscribing := true, finishers := s.finishers + [Finisher(verdict, |s.blocks.lookups|)]))
  }

  function OnReceipt(s: State, r: Receipt): (t: State)
    requires FinishersFit(s.finishers, s.blocks.lookups)
    ensures SettledRun(s, t) && t.signer == s.signer && t.batch == s.batch
    ensures t.finishers == s.finishers || t.finishers == s.finishers + [Finisher(Revert, |t.blocks.lookups|)]
         || t.finishers == s.finishers + [Finisher(Deliver(r), |t.blocks.lookups|)]
    ensures !s.settled.Open? ==> t.run == s.run && t.settled == s.settled
  {
    match r.status
    case InProgress => s
    case InBlock(hash) =>
      var s1 := s.(blocks := StartLookup(s.blocks, hash, r.txIndex));
      if Emitted(r, ExtrinsicFailed) then AwaitEnd(s1, Revert) else s1
    case Finalized(_) => AwaitEnd(s, Deliver(r))
    case Errored => Reject(s.(unsubscribing := true), TransactionAborted)
  }

  predicate Pending(b: Blocks, i: nat) {
    i < |b.lookups| && b.lookups[i].answer.Waiting?
  }

  function Fetch(b: Blocks, i: nat, number: nat): Blocks
    requires Pending(b, i)
  {
    var l := b.lookups[i];
    Blocks(b.lookups[i := l.(answer := Fetched(number))],
           Some(l.hash), Some(number), Some(l.txIndex), b.completed + [i])
  }

  function Lose(b: Blocks, i: nat): Blocks
    requires Pending(b, i)
  {
    b.(lookups := b.lookups[i := b.lookups[i].(answer := Broken)])
  }

  function OnFees(s: State, answer: FeesAnswer): State {
    match answer
    case NotCovered(fault) => s.(run := Catch(s.run, CodeFor(fault)))
    case FeesUnavailable => s.(run := Catch(s.run, Foreign))
    case CoveredButUnsendable => Reject(s.(run := WithStatus(s.run.(phase := Submitted), Unapproved)), Foreign)
    case Covered => s.(run := WithStatus(s.run.(phase := Submitted), Unapproved), signer := Asked)
  }

  function Approving(s: State, hash: string, works: bool): State {
    s.(run := WithStatus(s.run.(txHash := Some(hash)), Running), signer := Approved(works))
  }

  function OnRefusal(s: State, cancelled: bool): State {
    Reject(s.(signer := Refused), if cancelled then TransactionRejectedByUser else UnexpectedError)
  }

  function Succeed(r: Run, v: Value): Run {
    WithStatus(r.(result := Some(v)), Succeeded).(hasRun := true, phase := Done)
  }

  /** A step that cannot happen in a state (an answer to a question not asked) leaves it alone.
      So does a call while the object is already running: such calls must not overlap. */
  function Next(s: State, e: Step): State
    requires FinishersFit(s.finishers, s.blocks.lookups)
  {
    match e
    case Call =>
      if s.run.hasRun || s.run.phase != NotStarted then s else s.(run := s.run.(phase := CheckingFees))
    case FeesAnswered(answer) => if s.run.phase.CheckingFees? then OnFees(s, answer) else s
    case Approve(hash, works) => if s.signer.Asked? then Flush(Approving(s, hash, works)) else s
    case Refuse(cancelled) => if s.signer.Asked? then OnRefusal(s, cancelled) else s
    case Arrive(r) => if Listening(s) then OnReceipt(s, r) else s
    case FetchBlock(i, number) => if Pending(s.blocks, i) then Flush(s.(blocks := Fetch(s.blocks, i, number))) else s
    case LoseBlock(i) => if Pending(s.blocks, i) then Flush(s.(blocks := Lose(s.blocks, i))) else s
    case ValueReady(v) => if s.run.phase.Resolving? then s.(run := Succeed(s.run, v)) else s
    case ValueThrew(code) => if s.run.phase.Resolving? then s.(run := Catch(s.run, code)) else s
  }

  // ---------------------------------------------------------------- what every state keeps

  /** The histories of a transaction that was sent, and of one the signer approved. */
  ghost function Sent(): seq<Status> {
    [Idle] + [Unapproved]
  }

  ghost function Approvals(): seq<Status> {
    Sent() + [Running]
  }

  /** What an error that could arrive before the approval looks like. */
  ghost predicate EarlyCode(code: ErrorCode) {
    code == TransactionAborted || code == Foreign
  }

  ghost predicate SubmittedFits(r: Run, signer: Signer) {
    && !r.hasRun && r.receipt.None? && r.error.None? && r.result.None?
    && if signer.Asked? then r.txHash.None? && r.history == Sent()
       else signer.Approved? && r.txHash.Some? && r.history == Approvals()
  }

  ghost predicate ThrownFits(r: Run, signer: Signer, code: ErrorCode) {
    && r.hasRun && r.phase.Done? && r.error == Some(code) && r.result.None? && r.receipt.None?
    && match signer
       case NotAsked => code == Foreign && r.history == Sent() + [StatusFor(code)]
       case Asked => EarlyCode(code) && r.history == Sent() + [StatusFor(code)]
       case Refused =>
         && (EarlyCode(code) || code == TransactionRejectedByUser || code == UnexpectedError)
         && r.history == Sent() + [StatusFor(code)]
       case Approved(_) =>
         || r.history == Approvals() + [StatusFor(code)]
         || (EarlyCode(code) && r.history == Sent() + [StatusFor(code)] + [Running])
  }

  ghost predicate ResolvedFits(r: Run, receipt: Receipt) {
    && r.receipt == Some(receipt)
    && if r.phase.Resolving?
       then !r.hasRun && r.error.None? && r.result.None? && r.history == Approvals()
       else
         && r.hasRun && r.phase.Done?
         && if r.error.None? then r.result.Some? && r.history == Approvals() + [Succeeded]
            else r.result.None? && r.history == Approvals() + [StatusFor(r.error.value)]
  }

  ghost predicate RunFits(r: Run, signer: Signer, settled: Settlement) {
    match settled
    case Thrown(code) => ThrownFits(r, signer, code)
    case Resolved(receipt) => signer == Approved(true) && ResolvedFits(r, receipt)
    case Open =>
      if r.phase.Submitted? then SubmittedFits(r, signer)
      else
        && signer.NotAsked?
        && if r.phase.Done?
           then
             && r.hasRun && r.error.Some? && r.result.None? && r.receipt.None?
             && r.history == [Idle] + [StatusFor(r.error.value)] && StatusFor(r.error.value).Failed?
           else !r.phase.Resolving? && r == Fresh(r.phase)
  }

  ghost predicate Distinct(ns: seq<nat>) {
    forall i, j :: 0 <= i < j < |ns| ==> ns[i] != ns[j]
  }

  ghost predicate BlockDataIs(b: Blocks, i: nat) {
    && i < |b.lookups| && b.lookups[i].answer.Fetched?
    && b.blockHash == Some(b.lookups[i].hash)
    && b.blockNumber == Some(b.lookups[i].answer.number)
    && b.txIndex == Some(b.lookups[i].txIndex)
  }

  ghost predicate BlockDataUnset(b: Blocks) {
    b.blockHash.None? && b.blockNumber.None? && b.txIndex.None?
  }

  ghost predicate LookupsFit(b: Blocks) {
    && Distinct(b.completed)
    && (forall i :: i in b.completed ==> 0 <= i < |b.lookups|)
    && (forall i :: 0 <= i < |b.lookups| ==> (b.lookups[i].answer.Fetched? <==> i in b.completed))
    && if b.completed == [] then BlockDataUnset(b)
       else BlockDataIs(b, b.completed[|b.completed| - 1])
  }

  /** The finisher that settled the promise, or could have. */
  ghost predicate Decides(batch: bool, settled: Settlement, lookups: seq<Lookup>, f: Finisher)
    requires f.started <= |lookups|
  {
    && LookupOver(lookups, f.started)
    && match settled
       case Open => false
       case Resolved(r) => f.verdict == Deliver(r) && !(batch && Emitted(r, BatchInterrupted))
       case Thrown(code) =>
         && code == TransactionReverted
         && (f.verdict.Revert? || (batch && Emitted(f.verdict.receipt, BatchInterrupted)))
  }

  ghost predicate Decided(s: State)
    requires FinishersFit(s.finishers, s.blocks.lookups)
  {
    s.settled.Resolved? || s.settled == Thrown(TransactionReverted) ==>
      && s.signer == Approved(true)
      && exists k :: 0 <= k < |s.finishers| && Decides(s.batch, s.settled, s.blocks.lookups, s.finishers[k])
  }

  ghost predicate FinishersOrdered(finishers: seq<Finisher>) {
    && (forall i, j :: 0 <= i < j < |finishers| ==> finishers[i].started <= finishers[j].started)
    && (forall k :: 0 <= k < |finishers| ==>
          if finishers[k].verdict.Revert? then finishers[k].started > 0
          else finishers[k].verdict.receipt.status.Finalized?)
  }

  /** An open promise has no finisher left that could decide. */
  ghost predicate NoneReady(s: State)
    requires FinishersFit(s.finishers, s.blocks.lookups)
  {
    s.settled.Open? ==>
      forall k :: 0 <= k < |s.finishers| ==> Readied(s.signer, s.blocks.lookups, s.finishers[k].started).Wait?
  }

  /** All but `NoneReady`: what holds just before the finishers are looked at. */
  ghost predicate Core(s: State) {
    && RunFits(s.run, s.signer, s.settled)
    && LookupsFit(s.blocks)
    && FinishersFit(s.finishers, s.blocks.lookups)
    && FinishersOrdered(s.finishers)
    && (s.signer.NotAsked? ==> s.blocks.lookups == [] && s.finishers == [])
    && (s.finishers != [] ==> s.unsubscribing)
    && Decided(s)
  }

  ghost predicate Inv(s: State) {
    Core(s) && NoneReady(s)
  }

  lemma InitialInv(batch: bool)
    ensures Inv(Initial(batch))
  {
  }

  lemma RejectInv(s: State, code: ErrorCode)
    requires Core(s) && s.settled.Open? && s.run.phase.Submitted?
    requires EarlyCode(code)
    ensures Inv(Reject(s, code))
  {
  }

  lemma JudgeInv(s: State, k: nat)
    requires Core(s) && k < |s.finishers|
    requires Readied(s.signer, s.blocks.lookups, s.finishers[k].started).Go?
    requires s.settled.Open?
    ensures Inv(Judge(s, s.finishers[k].verdict))
  {
    var t := Judge(s, s.finishers[k].verdict);
    assert Decides(t.batch, t.settled, t.blocks.lookups, t.finishers[k]);
  }

  lemma FlushInv(s: State)
    requires Core(s)
    ensures Inv(Flush(s))
  {
    match FirstReady(s.signer, s.blocks.lookups, s.finishers, 0)
    case None =>
    case Some(k) =>
      if s.settled.Open? {
        if Readied(s.signer, s.blocks.lookups, s.finishers[k].started).Go? {
          JudgeInv(s, k);
        } else {
          RejectInv(s, Foreign);
        }
      }
  }

  lemma ApproveInv(s: State, hash: string, works: bool)
    requires Inv(s)
    ensures Inv(Next(s, Approve(hash, works)))
  {
    if s.signer.Asked? {
      FlushInv(Approving(s, hash, works));
    }
  }

  /** Lookups may be added or answered, but no answer is taken back. */
  lemma BlocksKept(s: State, b: Blocks)
    requires Inv(s) && !s.signer.NotAsked? && LookupsFit(b) && |b.lookups| >= |s.blocks.lookups|
    requires forall k :: 0 <= k < |s.blocks.lookups| && s.blocks.lookups[k].answer.Fetched?
                         ==> b.lookups[k] == s.blocks.lookups[k]
    ensures Core(s.(blocks := b))
  {
    if s.settled.Resolved? || s.settled == Thrown(TransactionReverted) {
      var k :| 0 <= k < |s.finishers| && Decides(s.batch, s.settled, s.blocks.lookups, s.finishers[k]);
      assert Decides(s.batch, s.settled, b.lookups, s.finishers[k]);
    }
  }

  lemma AwaitEndInv(s: State, verdict: Verdict)
    requires Core(s) && Listening(s)
    requires if verdict.Revert? then s.blocks.lookups != [] else verdict.receipt.status.Finalized?
    ensures Inv(AwaitEnd(s, verdict))
  {
    FlushInv(s.(unsubscribing := true, finishers := s.finishers + [Finisher(verdict, |s.blocks.lookups|)]));
  }

  lemma ArriveInv(s: State, r: Receipt)
    requires Inv(s)
    ensures Inv(Next(s, Arrive(r)))
  {
    if Listening(s) {
      match r.status
      case InProgress =>
      case InBlock(hash) => InBlockInv(s, r, hash);
      case Finalized(_) => AwaitEndInv(s, Deliver(r));
      case Errored =>
        if s.settled.Open? {
          RejectInv(s.(unsubscribing := true), TransactionAborted);
        }
    }
  }

  lemma InBlockInv(s: State, r: Receipt, hash: string)
    requires Inv(s) && Listening(s) && r.status == InBlock(hash)
    ensures Inv(OnReceipt(s, r))
  {
    var b := StartLookup(s.blocks, hash, r.txIndex);
    assert LookupsFit(b);
    BlocksKept(s, b);
    if Emitted(r, ExtrinsicFailed) {
      AwaitEndInv(s.(blocks := b), Revert);
    }
  }

  lemma FetchInv(s: State, i: nat, number: nat)
    requires Inv(s)
    ensures Inv(Next(s, FetchBlock(i, number)))
  {
    if Pending(s.blocks, i) {
      var b := Fetch(s.blocks, i, number);
      assert i in b.completed && forall k :: k in b.completed <==> k == i || k in s.blocks.completed;
      assert LookupsFit(b);
      BlocksKept(s, b);
      FlushInv(s.(blocks := b));
    }
  }

  lemma LoseInv(s: State, i: nat)
    requires Inv(s)
    ensures Inv(Next(s, LoseBlock(i)))
  {
    if Pending(s.blocks, i) {
      var b := Lose(s.blocks, i);
      assert LookupsFit(b);
      BlocksKept(s, b);
      FlushInv(s.(blocks := b));
    }
  }

  lemma FeesInv(s: State, answer: FeesAnswer)
    requires Inv(s)
    ensures Inv(Next(s, FeesAnswered(answer)))
  {
    if s.run.phase.CheckingFees? {
      assert s.run == Fresh(CheckingFees) && s.signer.NotAsked?;
      match answer
      case NotCovered(_) =>
      case FeesUnavailable =>
      case CoveredButUnsendable =>
      case Covered =>
    }
  }

  lemma RefuseInv(s: State, cancelled: bool)
    requires Inv(s)
    ensures Inv(Next(s, Refuse(cancelled)))
  {
    if s.signer.Asked? {
      if s.settled.Open? {
        RefusalFits(s.run, if cancelled then TransactionRejectedByUser else UnexpectedError);
      } else {
        assert s.settled.Thrown?;
      }
    }
  }

  lemma RefusalFits(r: Run, code: ErrorCode)
    requires SubmittedFits(r, Asked) && (code == TransactionRejectedByUser || code == UnexpectedError)
    ensures ThrownFits(Catch(r, code), Refused, code)
  {
  }

  lemma ValueInv(s: State, e: Step)
    requires Inv(s) && (e.ValueReady? || e.ValueThrew?)
    ensures Inv(Next(s, e))
  {
  }

  lemma NextInv(s: State, e: Step)
    requires Inv(s)
    ensures Inv(Next(s, e))
  {
    match e
    case Call =>
    case FeesAnswered(answer) => FeesInv(s, answer);
    case Approve(hash, works) => ApproveInv(s, hash, works);
    case Refuse(cancelled) => RefuseInv(s, cancelled);
    case Arrive(r) => ArriveInv(s, r);
    case FetchBlock(i, n) => FetchInv(s, i, n);
    case LoseBlock(i) => LoseInv(s, i);
    case ValueReady(_) => ValueInv(s, e);
    case ValueThrew(_) => ValueInv(s, e);
  }

  /** The state after any sequence of steps. */
  ghost function After(batch: bool, es: seq<Step>): (s: State)
    ensures FinishersFit(s.finishers, s.blocks.lookups)
    decreases |es|, 0
  {
    if es == [] then Initial(batch)
    else
      AfterInv(batch, es[..|es| - 1]);
      NextInv(After(batch, es[..|es| - 1]), es[|es| - 1]);
      Next(After(batch, es[..|es| - 1]), es[|es| - 1])
  }

  /** All of them satisfy the invariant. */
  lemma {:induction false} AfterInv(batch: bool, es: seq<Step>)
    ensures Inv(After(batch, es)) && After(batch, es).batch == batch
    decreases |es|, 1
  {
    if es == [] {
      InitialInv(batch);
    } else {
      AfterInv(batch, es[..|es| - 1]);
      NextInv(After(batch, es[..|es| - 1]), es[|es| - 1]);
      BatchKept(After(batch, es[..|es| - 1]), es[|es| - 1]);
    }
  }

  lemma AfterOneMore(batch: bool, es: seq<Step>, e: Step)
    ensures After(batch, es + [e]) == Next(After(batch, es), e)
  {
    assert (es + [e])[..|es + [e]| - 1] == es;
  }

  lemma AfterTwoMore(batch: bool, es: seq<Step>, a: Step, b: Step)
    ensures After(batch, es + [a]) == Next(After(batch, es), a)
    ensures After(batch, es + [a] + [b]) == Next(After(batch, es + [a]), b)
  {
    AfterOneMore(batch, es, a);
    AfterOneMore(batch, es + [a], b);
  }

  lemma BatchKept(s: State, e: Step)
    requires Inv(s)
    ensures Next(s, e).batch == s.batch
  {
  }
}
