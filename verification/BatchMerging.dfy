/** `createTransactionBatch`: several transactions and batches become one batch, whose resolver hands to each
    of the old resolvers the events of its own transactions only. */
module BatchMerging {
  import opened Common
  import opened Receipts
  import opened Lifecycle
  import opened Splitting
  import Fees

  /** A transaction or a batch to be merged, with its resolver and transformer. */
  datatype Input = Input(entries: seq<Fees.Entry>, spec: Spec)

  function EntriesOf(inputs: seq<Input>): (r: seq<Fees.Entry>) {
    if inputs == [] then [] else inputs[0].entries + EntriesOf(inputs[1..])
  }

  lemma {:induction false} EntriesAppend(a: seq<Input>, b: seq<Input>)
    ensures EntriesOf(a + b) == EntriesOf(a) + EntriesOf(b)
  {
    if a == [] {
      assert a + b == b;
    } else {
      assert (a + b)[1..] == a[1..] + b;
      EntriesAppend(a[1..], b);
    }
  }

  /** Where the transactions of the first `k` inputs end. */
  function End(inputs: seq<Input>, k: nat): nat
    requires k <= |inputs|
  {
    |EntriesOf(inputs[..k])|
  }

  lemma EndSucc(inputs: seq<Input>, k: nat)
    requires k < |inputs|
    ensures EntriesOf(inputs[..k + 1]) == EntriesOf(inputs[..k]) + inputs[k].entries
    ensures End(inputs, k + 1) == End(inputs, k) + |inputs[k].entries|
  {
    assert inputs[..k + 1] == inputs[..k] + [inputs[k]];
    EntriesAppend(inputs[..k], [inputs[k]]);
    assert EntriesOf([inputs[k]]) == inputs[k].entries;
  }

  lemma {:induction false} EndMonotone(inputs: seq<Input>, j: nat, k: nat)
    requires j <= k <= |inputs|
    ensures End(inputs, j) <= End(inputs, k)
    decreases k
  {
    if j < k {
      EndMonotone(inputs, j, k - 1);
      EndSucc(inputs, k - 1);
    }
  }

  /** How many entries the first `k` inputs have. */
  function EntriesBefore(inputs: seq<Input>, k: nat): nat
    requires k <= |inputs|
  {
    if k == 0 then 0 else EntriesBefore(inputs, k - 1) + |inputs[k - 1].entries|
  }

  lemma {:induction false} EndIsBefore(inputs: seq<Input>, k: nat)
    requires k <= |inputs|
    ensures End(inputs, k) == EntriesBefore(inputs, k)
  {
    if k > 0 {
      EndIsBefore(inputs, k - 1);
      EndSucc(inputs, k - 1);
    }
  }

  /** Every input's entries stand in order where those of its predecessors end, and its range is just theirs. */
  lemma EntriesStandInOrder(inputs: seq<Input>, k: nat)
    requires k < |inputs|
    ensures End(inputs, k) == EntriesBefore(inputs, k) && End(inputs, k + 1) == EntriesBefore(inputs, k + 1)
    ensures |EntriesOf(inputs)| == EntriesBefore(inputs, |inputs|)
    ensures End(inputs, k + 1) <= |EntriesOf(inputs)|
    ensures EntriesOf(inputs)[End(inputs, k)..End(inputs, k + 1)] == inputs[k].entries
  {
    EndIsBefore(inputs, k);
    EndIsBefore(inputs, k + 1);
    EndIsBefore(inputs, |inputs|);
    assert inputs[..|inputs|] == inputs;
    EndSucc(inputs, k);
    assert inputs == inputs[..k + 1] + inputs[k + 1..];
    EntriesAppend(inputs[..k + 1], inputs[k + 1..]);
  }

  lemma RangeFits(inputs: seq<Input>, k: nat)
    requires k < |inputs|
    ensures End(inputs, k) <= End(inputs, k + 1) <= |EntriesOf(inputs)|
  {
    EndMonotone(inputs, k, k + 1);
    EndMonotone(inputs, k + 1, |inputs|);
    assert inputs[..|inputs|] == inputs;
  }

  /** `prepareStorage`: appends the transactions of one input after another and notes their ranges. */
  method PrepareStorage(inputs: seq<Input>)
    returns (transactions: seq<Fees.Entry>, ranges: seq<(nat, nat)>, tags: seq<Fees.Tag>)
    ensures transactions == EntriesOf(inputs)
    ensures |ranges| == |inputs| && forall k :: 0 <= k < |inputs| ==> ranges[k] == (End(inputs, k), End(inputs, k + 1))
    ensures |tags| == |transactions| && forall i :: 0 <= i < |tags| ==> tags[i] == transactions[i].tag
  {
    transactions, ranges, tags := [], [], [];
    for k := 0 to |inputs|
      invariant transactions == EntriesOf(inputs[..k])
      invariant |ranges| == k && forall j :: 0 <= j < k ==> ranges[j] == (End(inputs, j), End(inputs, j + 1))
      invariant |tags| == |transactions| && forall i :: 0 <= i < |tags| ==> tags[i] == transactions[i].tag
    {
      EndSucc(inputs, k);
      var startIndex := |transactions|;
      for i := 0 to |inputs[k].entries|
        invariant transactions == EntriesOf(inputs[..k]) + inputs[k].entries[..i]
        invariant |tags| == |transactions| && forall j :: 0 <= j < |tags| ==> tags[j] == transactions[j].tag
      {
        transactions := transactions + [inputs[k].entries[i]];
        tags := tags + [inputs[k].entries[i].tag];
      }
      assert inputs[k].entries[..|inputs[k].entries|] == inputs[k].entries;
      ranges := ranges + [(startIndex, |transactions|)];
    }
    assert inputs[..|inputs|] == inputs;
  }

  // ---------------------------------------------------------------- the combined resolver

  /** What input `k` makes of the receipt of the whole batch. */
  function Part(inputs: seq<Input>, k: nat, receipt: Receipt): Outcome
    requires k < |inputs|
  {
    match inputs[k].spec.resolver
    case Plain(_) => Produce(inputs[k].spec, receipt)
    case Function(_) =>
      match Slice(receipt, End(inputs, k), End(inputs, k + 1))
      case Err(code) => Threw(code)
      case Ok(own) => Produce(inputs[k].spec, own)
  }

  /** All of them, from the `k`-th on: their values, or the first error. */
  function Parts(inputs: seq<Input>, k: nat, receipt: Receipt): (r: Result<seq<Value>, ErrorCode>)
    requires k <= |inputs|
    ensures r.Ok? ==> |r.value| == |inputs| - k
    ensures r.Ok? ==> forall j :: k <= j < |inputs| ==> Part(inputs, j, receipt) == Returned(r.value[j - k])
    ensures r.Err? ==> exists j :: k <= j < |inputs| && Part(inputs, j, receipt) == Threw(r.error)
    decreases |inputs| - k
  {
    if k == |inputs| then Ok([])
    else
      match Part(inputs, k, receipt)
      case Threw(code) => Err(code)
      case Returned(v) =>
        match Parts(inputs, k + 1, receipt)
        case Err(code) => Err(code)
        case Ok(vs) => Ok([v] + vs)
  }

  function Combined(inputs: seq<Input>): Spec {
    Spec(Function((r: Receipt) =>
           match Parts(inputs, 0, r)
           case Err(code) => Threw(code)
           case Ok(vs) => Returned(Many(vs))),
         None)
  }

  /** The receipts of the transactions of input `k`. */
  function OwnReceipts(inputs: seq<Input>, k: nat, rs: seq<Receipt>): seq<Receipt>
    requires k < |inputs| && |rs| == |EntriesOf(inputs)|
  {
    RangeFits(inputs, k);
    rs[End(inputs, k)..End(inputs, k + 1)]
  }

  /** The merged receipt with the events of these only. */
  function OwnPart(inputs: seq<Input>, k: nat, rs: seq<Receipt>): Receipt
    requires k < |inputs| && |rs| == |EntriesOf(inputs)| && rs != []
  {
    Merge(rs).(events := AllEvents(OwnReceipts(inputs, k, rs)))
  }

  /** A merged receipt gives each input what its own transactions emitted, and nothing else. */
  lemma EachSeesItsOwn(inputs: seq<Input>, k: nat, rs: seq<Receipt>)
    requires k < |inputs| && |rs| == |EntriesOf(inputs)| && rs != [] && TruthfulCounts(rs)
    ensures Part(inputs, k, Merge(rs))
         == Produce(inputs[k].spec, OwnPart(inputs, k, rs))
    ensures Applied(inputs[k].spec, OwnPart(inputs, k, rs), Part(inputs, k, Merge(rs)))
  {
    ProduceMeans(inputs[k].spec, OwnPart(inputs, k, rs), Part(inputs, k, Merge(rs)));
    RangeFits(inputs, k);
    SliceOfMerge(rs, End(inputs, k), End(inputs, k + 1));
  }

  /** The value holds, for every input in order, what that input's resolver and transformer make of the events
      of exactly its own transactions. */
  ghost predicate EachGotItsOwn(inputs: seq<Input>, rs: seq<Receipt>, value: Value)
    requires |rs| == |EntriesOf(inputs)| && rs != []
  {
    && value.Many? && |value.values| == |inputs|
    && forall k :: 0 <= k < |inputs| ==>
         Applied(inputs[k].spec, OwnPart(inputs, k, rs), Returned(value.values[k]))
  }

  lemma MergedGives(inputs: seq<Input>, rs: seq<Receipt>, value: Value)
    requires |rs| == |EntriesOf(inputs)| && rs != [] && TruthfulCounts(rs)
    requires Applied(Combined(inputs), Merge(rs), Returned(value))
    ensures EachGotItsOwn(inputs, rs, value)
  {
    assert Parts(inputs, 0, Merge(rs)).Ok?;
    forall k | 0 <= k < |inputs|
      ensures Applied(inputs[k].spec, OwnPart(inputs, k, rs), Returned(value.values[k]))
    {
      EachSeesItsOwn(inputs, k, rs);
    }
  }

  /** The transactions of a finished split, none of which was a batch of its own. */
  ghost predicate PlainReceipts(txs: seq<State>) {
    forall i :: 0 <= i < |txs| && txs[i].run.receipt.Some? ==> !Emitted(txs[i].run.receipt.value, BatchCompleted)
  }

  ghost predicate MergedResult(inputs: seq<Input>, txs: seq<State>) {
    && |txs| == |EntriesOf(inputs)| > 0
    && (forall i :: 0 <= i < |txs| ==> txs[i].run.receipt.Some?)
    && txs[|txs| - 1].run.result.Some?
    && EachGotItsOwn(inputs, ReceiptsOf(txs), txs[|txs| - 1].run.result.value)
  }

  lemma MergedResultOf(inputs: seq<Input>, txs: seq<State>)
    requires |txs| == |EntriesOf(inputs)| && PlainReceipts(txs) && SplitResult(Combined(inputs), txs)
    ensures MergedResult(inputs, txs)
  {
    PlainReceiptsAreTruthful(ReceiptsOf(txs));
    MergedGives(inputs, ReceiptsOf(txs), txs[|txs| - 1].run.result.value);
  }

  /** Merging transactions into a batch and splitting it again: when the last transaction of the split succeeds,
      every input got its own. */
  lemma MergedThenSplit(inputs: seq<Input>, es: seq<(nat, Step)>)
    requires |EntriesOf(inputs)| > 0
    requires var txs := SplitAfter(Combined(inputs), |EntriesOf(inputs)|, es).txs;
             txs[|txs| - 1].run.status.Succeeded? && PlainReceipts(txs)
    ensures MergedResult(inputs, SplitAfter(Combined(inputs), |EntriesOf(inputs)|, es).txs)
  {
    var n := |EntriesOf(inputs)|;
    SplitRefinesBatch(Combined(inputs), n, es);
    MergedResultOf(inputs, SplitAfter(Combined(inputs), n, es).txs);
  }

  // ---------------------------------------------------------------- receipts that are not a batch's

  /** Of a receipt without a `BatchCompleted` event nothing can be made, unless no input has a resolver function. */
  lemma NeedsABatchReceipt(inputs: seq<Input>, r: Receipt)
    requires !Emitted(r, BatchCompleted)
    ensures Produce(Combined(inputs), r).Returned? <==>
              forall k :: 0 <= k < |inputs| ==> inputs[k].spec.resolver.Plain? && Produce(inputs[k].spec, r).Returned?
  {
    forall k | 0 <= k < |inputs|
      ensures Part(inputs, k, r).Returned? <==>
                inputs[k].spec.resolver.Plain? && Produce(inputs[k].spec, r).Returned?
    {
      assert inputs[k].spec.resolver.Function? ==> Slice(r, End(inputs, k), End(inputs, k + 1)).Err?;
    }
    assert Produce(Combined(inputs), r).Returned? <==> Parts(inputs, 0, r).Ok?;
  }

  /** So merging a single transaction loses its result: `prepare` makes no batch of it, its receipt has no such
      event, and a run that the chain has finalized is reported as failed. */
  lemma OneTransactionFailsOnceMerged(input: Input, s: State, r: Receipt)
    requires |input.entries| == 1 && input.spec.resolver.Function?
    requires Inv(s) && s.run.phase.Resolving? && s.settled == Resolved(r) && !Emitted(r, BatchCompleted)
    ensures Fees.Collapse(EntriesOf([input]), Option.None).Single?
    ensures Next(s, ValueStep(Produce(Combined([input]), r))).run.status.Failed?
  {
    assert EntriesOf([input]) == input.entries + EntriesOf([input][1..]);
    assert Part([input], 0, r) == Threw(UnexpectedError);
    assert Parts([input], 0, r) == Err(UnexpectedError);
    assert Produce(Combined([input]), r) == Threw(UnexpectedError);
  }

  // ---------------------------------------------------------------- fees

  function FeesOf(ops: set<Fees.Tag>, c: Fees.Schedule, inputs: seq<Input>): real {
    if inputs == [] then 0.0 else Fees.BatchFee(ops, c, inputs[0].entries) + FeesOf(ops, c, inputs[1..])
  }

  /** The merged batch costs what its parts cost. */
  lemma {:induction false} MergingKeepsFees(ops: set<Fees.Tag>, c: Fees.Schedule, inputs: seq<Input>)
    ensures Fees.BatchFee(ops, c, EntriesOf(inputs)) == FeesOf(ops, c, inputs)
  {
    if inputs != [] {
      MergingKeepsFees(ops, c, inputs[1..]);
      Fees.FeesAddUp(ops, c, inputs[0].entries, EntriesOf(inputs[1..]));
    }
  }
}
