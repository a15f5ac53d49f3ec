/** Which block the fields of a transaction object name, over every interleaving of receipts and block lookups. */
module BlockData {
  import opened Common
  import opened Receipts
  import opened Lifecycle
  import opened LifecycleProperties

  /** The three block fields are unset together, or all come from one and the same in-block receipt:
      the one whose lookup was answered last. */
  ghost predicate BlockDataAgrees(b: Blocks) {
    if b.completed == [] then BlockDataUnset(b) else BlockDataIs(b, b.completed[|b.completed| - 1])
  }

  lemma BlockDataAlwaysAgrees(batch: bool, es: seq<Step>)
    ensures BlockDataAgrees(After(batch, es).blocks)
  {
    AfterInv(batch, es);
    AgreesIfInv(After(batch, es));
  }

  lemma AgreesIfInv(s: State)
    requires Inv(s)
    ensures BlockDataAgrees(s.blocks)
  {
  }

  // ---------------------------------------------------------------- when they are set

  /** A run that was reverted has its block data, unless it is a batch that was interrupted. A run that resolved
      or was interrupted has them if an in-block receipt came before the first completing one. */
  lemma BlockDataSet(batch: bool, es: seq<Step>)
    ensures var s := After(batch, es);
            && (s.settled == Thrown(TransactionReverted) && !batch ==> !BlockDataUnset(s.blocks))
            && ((s.settled.Resolved? || s.settled == Thrown(TransactionReverted))
                && s.finishers != [] && s.finishers[0].started > 0
                ==> !BlockDataUnset(s.blocks))
  {
    AfterInv(batch, es);
    SetIfDecided(After(batch, es));
  }

  lemma SetIfDecided(s: State)
    requires Inv(s)
    ensures s.settled == Thrown(TransactionReverted) && !s.batch ==> !BlockDataUnset(s.blocks)
    ensures (s.settled.Resolved? || s.settled == Thrown(TransactionReverted))
            && s.finishers != [] && s.finishers[0].started > 0
            ==> !BlockDataUnset(s.blocks)
  {
    if s.settled.Resolved? || s.settled == Thrown(TransactionReverted) {
      var k :| 0 <= k < |s.finishers| && Decides(s.batch, s.settled, s.blocks.lookups, s.finishers[k]);
      assert s.finishers[0].started <= s.finishers[k].started;
      assert s.finishers[k].started > 0 ==> s.finishers[k].started - 1 in s.blocks.completed;
    }
  }

  // ---------------------------------------------------------------- when they are the newest

  /** The lookup answered last carries the same hash, number and index as the newest: it is that one, or
      agrees with it. */
  ghost predicate LastAnsweredAgrees(b: Blocks)
    requires LookupsFit(b) && b.lookups != []
  {
    b.completed != [] && b.lookups[b.completed[|b.completed| - 1]] == b.lookups[|b.lookups| - 1]
  }

  /** The fields are those of the newest in-block receipt if and only if that is so. */
  lemma BlockDataNewestExactly(batch: bool, es: seq<Step>)
    ensures var b := After(batch, es).blocks;
            LookupsFit(b) && (b.lookups != [] ==> (BlockDataIs(b, |b.lookups| - 1) <==> LastAnsweredAgrees(b)))
  {
    AfterInv(batch, es);
    if After(batch, es).blocks.lookups != [] {
      NewestIfFits(After(batch, es).blocks);
    }
  }

  lemma NewestIfFits(b: Blocks)
    requires LookupsFit(b) && b.lookups != []
    ensures BlockDataIs(b, |b.lookups| - 1) <==> LastAnsweredAgrees(b)
  {
    if b.completed != [] {
      assert b.completed[|b.completed| - 1] in b.completed;
    }
  }

  ghost predicate Increasing(ns: seq<nat>) {
    forall i, j :: 0 <= i < j < |ns| ==> ns[i] < ns[j]
  }

  /** So if the lookups are answered in the order they were started, they are the newest once that one is. */
  lemma AnsweredInOrder(batch: bool, es: seq<Step>)
    ensures var b := After(batch, es).blocks;
            Increasing(b.completed) && b.lookups != [] && |b.lookups| - 1 in b.completed ==> BlockDataIs(b, |b.lookups| - 1)
  {
    AfterInv(batch, es);
    NewestIfInOrder(After(batch, es).blocks);
  }

  lemma NewestIfInOrder(b: Blocks)
    requires LookupsFit(b)
    ensures Increasing(b.completed) && b.lookups != [] && |b.lookups| - 1 in b.completed ==> BlockDataIs(b, |b.lookups| - 1)
  {
    if Increasing(b.completed) && b.lookups != [] && |b.lookups| - 1 in b.completed {
      var at :| 0 <= at < |b.completed| && b.completed[at] == |b.lookups| - 1;
      var last := |b.completed| - 1;
      assert b.completed[last] in b.completed;
      assert at == last;
    }
  }

  // ---------------------------------------------------------------- when they change

  function Fields(b: Blocks): (Option<string>, Option<nat>, Option<nat>) {
    (b.blockHash, b.blockNumber, b.txIndex)
  }

  /** An event changes them if and only if it is the answer to a pending lookup that names another block, number
      or index: whatever the status of the transaction. */
  lemma FieldsChangeExactly(s: State, e: Step)
    requires Inv(s)
    ensures Fields(Next(s, e).blocks) != Fields(s.blocks) <==>
              && e.FetchBlock? && Pending(s.blocks, e.lookup)
              && (Some(s.blocks.lookups[e.lookup].hash), Some(e.number), Some(s.blocks.lookups[e.lookup].txIndex))
                 != Fields(s.blocks)
  {
  }

  /** So they can still change if and only if some lookup is still pending. */
  lemma FieldsCanChangeExactly(s: State)
    requires Inv(s)
    ensures (exists e :: Fields(Next(s, e).blocks) != Fields(s.blocks)) <==> exists i: nat :: Pending(s.blocks, i)
  {
    if i: nat :| Pending(s.blocks, i) {
      var other := if s.blocks.blockNumber == Some(0) then 1 else 0;
      FieldsChangeExactly(s, FetchBlock(i, other));
      assert Fields(Next(s, FetchBlock(i, other)).blocks) != Fields(s.blocks);
    }
    if e :| Fields(Next(s, e).blocks) != Fields(s.blocks) {
      FieldsChangeExactly(s, e);
      assert Pending(s.blocks, e.lookup);
    }
  }

  // ---------------------------------------------------------------- a run that ends with a stale block

  /** Approved, in a block, and in another one after that was retracted. */
  function Retracted(old0: Receipt, new0: Receipt): seq<Step> {
    Opening() + [Approve("0x1", true)] + [Arrive(old0)] + [Arrive(new0)]
  }

  /** The newer block is fetched, the receipt is finalized and the run succeeds. */
  function SucceededLater(old0: Receipt, new0: Receipt, final: Receipt, n: nat, v: Value): seq<Step> {
    Retracted(old0, new0) + [FetchBlock(1, n)] + [Arrive(final)] + [ValueReady(v)]
  }

  ghost function RetractedState(old0: Receipt, new0: Receipt): State
    requires old0.status.InBlock? && new0.status.InBlock?
  {
    var s := Approving(Asking(false), "0x1", true);
    s.(blocks := StartLookup(StartLookup(s.blocks, old0.status.hash, old0.txIndex), new0.status.hash, new0.txIndex))
  }

  lemma RetractedSteps(old0: Receipt, new0: Receipt)
    requires old0.status.InBlock? && new0.status.InBlock?
    requires !Emitted(old0, ExtrinsicFailed) && !Emitted(new0, ExtrinsicFailed)
    ensures var s := Approving(Asking(false), "0x1", true);
            && Next(Asking(false), Approve("0x1", true)) == s
            && Next(s, Arrive(old0)) == s.(blocks := StartLookup(s.blocks, old0.status.hash, old0.txIndex))
            && Next(s.(blocks := StartLookup(s.blocks, old0.status.hash, old0.txIndex)), Arrive(new0))
               == RetractedState(old0, new0)
  {
  }

  lemma RetractedReached(old0: Receipt, new0: Receipt)
    requires old0.status.InBlock? && new0.status.InBlock?
    requires !Emitted(old0, ExtrinsicFailed) && !Emitted(new0, ExtrinsicFailed)
    ensures After(false, Retracted(old0, new0)) == RetractedState(old0, new0)
  {
    OpeningAsks(false);
    AfterTwoMore(false, Opening(), Approve("0x1", true), Arrive(old0));
    AfterOneMore(false, Opening() + [Approve("0x1", true)] + [Arrive(old0)], Arrive(new0));
    RetractedSteps(old0, new0);
  }

  /** Finalized, and waiting for the resolver. */
  ghost function DeliveredState(s: State, final: Receipt, n: nat): State
    requires Pending(s.blocks, 1)
  {
    s.(blocks := Fetch(s.blocks, 1, n), unsubscribing := true, finishers := [Finisher(Deliver(final), 2)],
       settled := Resolved(final), run := s.run.(receipt := Some(final), phase := Resolving))
  }

  lemma DeliveredSteps(s: State, final: Receipt, n: nat)
    requires !s.batch && s.signer == Approved(true) && s.settled.Open? && s.finishers == [] && !s.unsubscribing
    requires |s.blocks.lookups| == 2 && Pending(s.blocks, 1) && final.status.Finalized?
    ensures var a := s.(blocks := Fetch(s.blocks, 1, n));
            && Next(s, FetchBlock(1, n)) == a
            && Next(a, Arrive(final)) == DeliveredState(s, final, n)
  {
    var waiting := [Finisher(Deliver(final), 2)];
    assert [] + waiting == waiting;
    assert FirstReady(Approved(true), Fetch(s.blocks, 1, n).lookups, waiting, 0) == Some(0);
  }

  lemma SuccessReached(old0: Receipt, new0: Receipt, final: Receipt, n: nat, v: Value)
    requires old0.status.InBlock? && new0.status.InBlock? && final.status.Finalized?
    requires !Emitted(old0, ExtrinsicFailed) && !Emitted(new0, ExtrinsicFailed)
    ensures var t := DeliveredState(RetractedState(old0, new0), final, n);
            After(false, SucceededLater(old0, new0, final, n, v)) == t.(run := Succeed(t.run, v))
  {
    RetractedReached(old0, new0);
    var es := Retracted(old0, new0);
    AfterTwoMore(false, es, FetchBlock(1, n), Arrive(final));
    AfterOneMore(false, es + [FetchBlock(1, n)] + [Arrive(final)], ValueReady(v));
    DeliveredSteps(RetractedState(old0, new0), final, n);
  }

  /** The run is Succeeded with the block it is in; then the answer about the block it was in before arrives,
      and the fields name that one, with nothing else changed. */
  lemma StaleBlock(old0: Receipt, new0: Receipt, final: Receipt, n0: nat, n1: nat, v: Value)
    requires old0.status.InBlock? && new0.status.InBlock? && final.status.Finalized?
    requires !Emitted(old0, ExtrinsicFailed) && !Emitted(new0, ExtrinsicFailed)
    ensures var es := SucceededLater(old0, new0, final, n1, v);
            var s, t := After(false, es), After(false, es + [FetchBlock(0, n0)]);
            && s.run.status.Succeeded?
            && Fields(s.blocks) == (Some(new0.status.hash), Some(n1), Some(new0.txIndex))
            && t.run == s.run
            && Fields(t.blocks) == (Some(old0.status.hash), Some(n0), Some(old0.txIndex))
  {
    SuccessReached(old0, new0, final, n1, v);
    AfterOneMore(false, SucceededLater(old0, new0, final, n1, v), FetchBlock(0, n0));
  }
}
