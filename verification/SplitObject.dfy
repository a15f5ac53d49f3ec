/** The objects `splitTransactions` returns, with the two arrays their closures share. */
module SplitObject {
  import opened Common
  import opened Receipts
  import opened Lifecycle
  import opened TransactionObject
  import opened Splitting

  class SplitBatch {
    const spec: Spec
    const txs: seq<Transaction>

    var receipts: seq<Receipt>
    var processedIndexes: seq<nat>

    // the transactions handed to signAndSend so far
    var submitted: seq<nat>

    ghost function View(): Split
      reads this, txs
    {
      Split(seq(|txs|, i requires 0 <= i < |txs| reads txs => txs[i].View()), receipts, processedIndexes, submitted)
    }

    ghost predicate Separate() {
      forall i, j :: 0 <= i < j < |txs| ==> txs[i] != txs[j]
    }

    ghost predicate Valid()
      reads this, txs
    {
      Separate() && SplitInv(spec, View())
    }

    constructor (spec: Spec, n: nat)
      ensures Valid() && View() == SplitInitial(n) && this.spec == spec
      ensures fresh(txs)
    {
      var created: seq<Transaction> := [];
      for i := 0 to n
        invariant |created| == i && fresh(created)
        invariant forall j, k :: 0 <= j < k < i ==> created[j] != created[k]
        invariant forall j :: 0 <= j < i ==> created[j].View() == Initial(false)
      {
        var transaction := new Transaction(false);
        created := created + [transaction];
      }
      this.spec := spec;
      txs := created;
      receipts, processedIndexes, submitted := [], [], [];
      new;
      SplitInitialInv(spec, n);
      assert View() == SplitInitial(n);
    }

    /** The overridden `run`: throws out of order, before anything has changed, and otherwise throws as the original
        one does, if the transaction has run; then, too, nothing changes. */
    method Run(i: nat) returns (r: Result<(), ErrorCode>)
      requires Valid() && i < |txs|
      modifies this, txs
      ensures Valid() && View() == SplitNext(spec, old(View()), i, Call)
      ensures r.Err? <==> !InOrder(old(processedIndexes), i) || old(txs[i].hasRun)
      ensures r.Err? ==> r.error == General && View() == old(View())
      ensures !InOrder(old(processedIndexes), i) ==> unchanged(this) && unchanged(txs)
    {
      if i >= 1 && !(i - 1 < |processedIndexes| && processedIndexes[i - 1] == i - 1) {
        return Err(General);
      }
      ghost var before := View();
      var refused := Handle(i, Call);
      if refused.Some? {
        RunAgainChangesNothing(spec, before, i);
        return Err(refused.value);
      }
      r := Ok(());
    }

    /** What the resolver of transaction `i` returns is fixed by the shared receipts. */
    method ActualStep(i: nat, e: Step) returns (actual: Step)
      requires i < |txs|
      ensures actual == Actual(spec, View(), i, e)
    {
      actual := e;
      if (e.ValueReady? || e.ValueThrew?) && txs[i].settled.Resolved? {
        var receipt := txs[i].settled.receipt;
        if i == |txs| - 1 {
          actual := ValueStep(Produce(LastSpec(spec, receipts), receipt));
        } else {
          actual := ValueReady(Undefined);
        }
      }
    }

    /** What the step of transaction `i` that has just been taken does to the shared arrays. */
    method Note(i: nat, wasOpen: bool, wasNotAsked: bool)
      requires i < |txs|
      modifies this
      ensures View() == Noted(old(View()), i, wasOpen, wasNotAsked)
    {
      var transaction := txs[i];
      if wasNotAsked && transaction.signer.Asked? {
        submitted := submitted + [i];
      }
      if wasOpen && transaction.settled.Resolved? && i != |txs| - 1 {
        processedIndexes := processedIndexes + [i];
        receipts := receipts + [transaction.settled.receipt];
      }
      assert View().txs == old(View()).txs;
    }

    /** A step of one object leaves the others alone. */
    method Deliver(i: nat, e: Step) returns (refused: Option<ErrorCode>)
      requires Separate() && i < |txs| && txs[i].Valid()
      modifies txs[i]
      ensures refused == if e.Call? && old(txs[i].hasRun) then Some(General) else None
      ensures View() == old(View()).(txs := old(View()).txs[i := Next(old(txs[i].View()), e)])
    {
      refused := txs[i].Handle(e);
      assert View().txs == old(View()).txs[i := txs[i].View()];
    }

    /** One step of transaction `i`. */
    method Handle(i: nat, e: Step) returns (refused: Option<ErrorCode>)
      requires Valid() && i < |txs|
      requires e.Call? ==> InOrder(processedIndexes, i)
      modifies this, txs
      ensures Valid() && View() == SplitNext(spec, old(View()), i, e)
      ensures refused == if e.Call? && old(txs[i].hasRun) then Some(General) else None
    {
      ghost var before := View();
      assert SplitInv(spec, SplitNext(spec, before, i, e)) by {
        SplitNextInv(spec, before, i, e);
      }
      assert txs[i].Valid() by {
        assert TxFits(spec, before, i) && before.txs[i] == txs[i].View();
      }
      var actual := ActualStep(i, e);
      var wasOpen, wasNotAsked := txs[i].settled.Open?, txs[i].signer.NotAsked?;
      refused := Deliver(i, actual);
      Note(i, wasOpen, wasNotAsked);
    }
  }
}
