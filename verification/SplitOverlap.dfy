/** Runs of one transaction of a split that overlap: `hasRun` is only set when a run is over, so a second call
    before that starts a second submission, and if both resolve, both resolvers note the same index. Each started
    run is followed by itself; of the fields runs of one object share, only `hasRun` is looked at. */
module SplitOverlap {
  import opened Common
  import opened Receipts
  import opened Lifecycle
  import opened LifecycleProperties
  import opened Splitting
  import opened SplitSchedule

  /** A run of transaction `index`. */
  datatype Started = Started(index: nat, tx: State)

  /** `noted` only records which runs the entries of the shared lists come from. */
  datatype Runs = Runs(runs: seq<Started>, receipts: seq<Receipt>, processed: seq<nat>, noted: seq<nat>)

  datatype Event = CallRun(index: nat) | On(run: nat, step: Step)

  ghost predicate AllFit(s: Runs) {
    forall a :: 0 <= a < |s.runs| ==> Inv(s.runs[a].tx)
  }

  predicate HasRun(s: Runs, index: nat) {
    exists a :: 0 <= a < |s.runs| && s.runs[a].index == index && s.runs[a].tx.run.hasRun
  }

  /** The resolvers of all objects but the last return nothing. */
  function ActualStep(n: nat, index: nat, e: Step): Step {
    if (e.ValueReady? || e.ValueThrew?) && index != n - 1 then ValueReady(Undefined) else e
  }

  /** A step of run `a`; but for the last object, resolving notes the index and the receipt. */
  ghost function Take(n: nat, s: Runs, a: nat, e: Step): Runs
    requires AllFit(s) && a < |s.runs|
  {
    var i, before := s.runs[a].index, s.runs[a].tx;
    Noting(n, s, a, Next(before, ActualStep(n, i, e)))
  }

  ghost function Noting(n: nat, s: Runs, a: nat, after: State): Runs
    requires a < |s.runs|
  {
    var i := s.runs[a].index;
    var runs := s.runs[a := Started(i, after)];
    if s.runs[a].tx.settled.Open? && after.settled.Resolved? && i != n - 1
    then Runs(runs, s.receipts + [after.settled.receipt], s.processed + [i], s.noted + [a])
    else s.(runs := runs)
  }

  predicate Accepted(n: nat, s: Runs, i: nat) {
    i < n && InOrder(s.processed, i) && !HasRun(s, i)
  }

  ghost function Happens(n: nat, s: Runs, e: Event): Runs
    requires AllFit(s)
  {
    match e
    case CallRun(i) => if Accepted(n, s, i) then s.(runs := s.runs + [Started(i, Called())]) else s
    case On(a, step) => if a < |s.runs| && !step.Call? then Take(n, s, a, step) else s
  }

  // ---------------------------------------------------------------- what every state keeps

  /** The entries of the lists are the runs that have resolved, each once, and every run was called in order. */
  ghost predicate NotedFits(n: nat, s: Runs) {
    && |s.noted| == |s.processed| == |s.receipts|
    && Distinct(s.noted)
    && (forall k :: 0 <= k < |s.noted| ==> NotedBy(n, s, k))
    && (forall a :: 0 <= a < |s.runs| && s.runs[a].tx.settled.Resolved? && s.runs[a].index != n - 1 ==> a in s.noted)
    && (forall a :: 0 <= a < |s.runs| ==> InOrder(s.processed, s.runs[a].index))
  }

  ghost predicate NotedBy(n: nat, s: Runs, k: nat)
    requires k < |s.noted| == |s.processed|
  {
    var a := s.noted[k];
    a < |s.runs| && s.runs[a].index == s.processed[k] != n - 1 && s.runs[a].tx.settled.Resolved?
  }

  ghost predicate RunsInv(n: nat, s: Runs) {
    AllFit(s) && NotedFits(n, s)
  }

  lemma CalledFits()
    ensures Inv(Called()) && Called().settled.Open?
  {
    RunStarts();
    InitialInv(false);
    NextInv(Initial(false), Call);
  }

  lemma CallKeeps(n: nat, s: Runs, i: nat)
    requires RunsInv(n, s) && Accepted(n, s, i)
    ensures RunsInv(n, s.(runs := s.runs + [Started(i, Called())]))
  {
    CalledFits();
    var t := s.(runs := s.runs + [Started(i, Called())]);
    forall k | 0 <= k < |t.noted| ensures NotedBy(n, t, k) {
      assert NotedBy(n, s, k);
    }
  }

  lemma NotYetNoted(n: nat, s: Runs, a: nat)
    requires NotedFits(n, s) && a < |s.runs| && s.runs[a].tx.settled.Open?
    ensures a !in s.noted
  {
    forall k | 0 <= k < |s.noted| ensures s.noted[k] != a {
      assert NotedBy(n, s, k);
    }
  }

  /** One run goes on, and a promise that has resolved stays so. */
  lemma NotingKeeps(n: nat, s: Runs, a: nat, after: State)
    requires RunsInv(n, s) && a < |s.runs| && Inv(after)
    requires !s.runs[a].tx.settled.Open? ==> after.settled == s.runs[a].tx.settled
    ensures RunsInv(n, Noting(n, s, a, after))
  {
    if s.runs[a].tx.settled.Open? && after.settled.Resolved? && s.runs[a].index != n - 1 {
      NotedNow(n, s, a, after);
    } else {
      NotNoted(n, s, s.(runs := s.runs[a := Started(s.runs[a].index, after)]));
    }
  }

  lemma NotNoted(n: nat, s: Runs, t: Runs)
    requires NotedFits(n, s) && |t.runs| == |s.runs| && t == s.(runs := t.runs)
    requires forall a :: 0 <= a < |s.runs| ==>
               && t.runs[a].index == s.runs[a].index
               && (t.runs[a].index != n - 1 ==> (t.runs[a].tx.settled.Resolved? <==> s.runs[a].tx.settled.Resolved?))
    ensures NotedFits(n, t)
  {
    forall k | 0 <= k < |t.noted| ensures NotedBy(n, t, k) {
      assert NotedBy(n, s, k);
    }
  }

  lemma NotedNow(n: nat, s: Runs, a: nat, after: State)
    requires NotedFits(n, s) && a < |s.runs| && s.runs[a].index != n - 1
    requires s.runs[a].tx.settled.Open? && after.settled.Resolved?
    ensures NotedFits(n, Noting(n, s, a, after))
  {
    var t := Noting(n, s, a, after);
    forall k | 0 <= k < |t.noted| ensures NotedBy(n, t, k) {
      if k < |s.noted| {
        assert NotedBy(n, s, k);
      }
    }
    NotYetNoted(n, s, a);
    forall b | 0 <= b < |t.runs| ensures InOrder(t.processed, t.runs[b].index) {
      assert InOrder(s.processed, s.runs[b].index);
    }
  }

  lemma HappensKeeps(n: nat, s: Runs, e: Event)
    requires RunsInv(n, s)
    ensures RunsInv(n, Happens(n, s, e))
    ensures s.processed <= Happens(n, s, e).processed
  {
    match e
    case CallRun(i) => if Accepted(n, s, i) { CallKeeps(n, s, i); }
    case On(a, step) =>
      if a < |s.runs| && !step.Call? {
        var before, actual := s.runs[a].tx, ActualStep(n, s.runs[a].index, step);
        NextInv(before, actual);
        if !before.settled.Open? {
          SettledOnce(before, actual);
        }
        NotingKeeps(n, s, a, Next(before, actual));
      }
  }

  /** The state after any events, whatever overlaps. */
  ghost function Later(n: nat, es: seq<Event>): (s: Runs)
    ensures AllFit(s)
    decreases |es|, 0
  {
    if es == [] then Runs([], [], [], [])
    else
      LaterInv(n, es[..|es| - 1]);
      HappensKeeps(n, Later(n, es[..|es| - 1]), es[|es| - 1]);
      Happens(n, Later(n, es[..|es| - 1]), es[|es| - 1])
  }

  lemma {:induction false} LaterInv(n: nat, es: seq<Event>)
    ensures RunsInv(n, Later(n, es))
    decreases |es|, 1
  {
    if es != [] {
      LaterInv(n, es[..|es| - 1]);
      HappensKeeps(n, Later(n, es[..|es| - 1]), es[|es| - 1]);
    }
  }

  lemma OneLater(n: nat, es: seq<Event>, e: Event)
    ensures Later(n, es + [e]) == Happens(n, Later(n, es), e)
  {
    assert (es + [e])[..|es + [e]| - 1] == es;
  }

  // ---------------------------------------------------------------- exactly when the indexes stay in order

  /** Two runs of one transaction other than the last have both resolved. */
  ghost predicate ResolvedTwice(n: nat, s: Runs) {
    exists a, b :: 0 <= a < b < |s.runs| && BothResolved(n, s, a, b)
  }

  ghost predicate BothResolved(n: nat, s: Runs, a: nat, b: nat)
    requires a < |s.runs| && b < |s.runs|
  {
    && s.runs[a].index == s.runs[b].index != n - 1
    && s.runs[a].tx.settled.Resolved? && s.runs[b].tx.settled.Resolved?
  }

  ghost predicate IndexesInOrder(s: Runs) {
    s.processed == Range(|s.processed|)
  }

  lemma TwiceIsOutOfOrder(n: nat, s: Runs)
    requires RunsInv(n, s) && ResolvedTwice(n, s)
    ensures !IndexesInOrder(s)
  {
    var a, b :| 0 <= a < b < |s.runs| && BothResolved(n, s, a, b);
    var p :| 0 <= p < |s.noted| && s.noted[p] == a;
    var q :| 0 <= q < |s.noted| && s.noted[q] == b;
    assert NotedBy(n, s, p) && NotedBy(n, s, q);
    assert s.processed[p] == s.processed[q] && p != q;
  }

  /** A run that notes its index out of order is the second of its transaction to resolve. */
  lemma OutOfOrderIsTwice(n: nat, s: Runs, a: nat, after: State)
    requires RunsInv(n, s) && a < |s.runs| && IndexesInOrder(s)
    requires !IndexesInOrder(Noting(n, s, a, after))
    ensures ResolvedTwice(n, Noting(n, s, a, after))
  {
    var i, t := s.runs[a].index, Noting(n, s, a, after);
    assert InOrder(s.processed, i);
    if i == |s.processed| {
      RangeSucc(i);
    } else {
      assert NotedBy(n, s, i);
      var b := s.noted[i];
      assert b != a && s.runs[b].index == i;
      assert BothResolved(n, t, a, b) && BothResolved(n, t, b, a);
    }
  }

  /** Resolving twice cannot be taken back. */
  lemma TwiceStays(n: nat, s: Runs, e: Event)
    requires RunsInv(n, s) && ResolvedTwice(n, s)
    ensures ResolvedTwice(n, Happens(n, s, e))
  {
    ResolvedStay(n, s, e);
    TwiceIn(n, s, Happens(n, s, e));
  }

  lemma ResolvedStay(n: nat, s: Runs, e: Event)
    requires AllFit(s)
    ensures var t := Happens(n, s, e);
            && |s.runs| <= |t.runs|
            && forall a :: 0 <= a < |s.runs| ==>
                 t.runs[a].index == s.runs[a].index && (s.runs[a].tx.settled.Resolved? ==> t.runs[a].tx.settled.Resolved?)
  {
    if e.On? && e.run < |s.runs| && s.runs[e.run].tx.settled.Resolved? {
      SettledOnce(s.runs[e.run].tx, ActualStep(n, s.runs[e.run].index, e.step));
    }
  }

  lemma TwiceIn(n: nat, s: Runs, t: Runs)
    requires ResolvedTwice(n, s) && |s.runs| <= |t.runs|
    requires forall a :: 0 <= a < |s.runs| ==>
               t.runs[a].index == s.runs[a].index && (s.runs[a].tx.settled.Resolved? ==> t.runs[a].tx.settled.Resolved?)
    ensures ResolvedTwice(n, t)
  {
    var a, b :| 0 <= a < b < |s.runs| && BothResolved(n, s, a, b);
    assert BothResolved(n, t, a, b);
  }

  /** Over all events: the processed indexes are 0, 1, .., k - 1 if and only if no two runs of one transaction other
      than the last have both resolved. */
  lemma {:induction false} InOrderExactly(n: nat, es: seq<Event>)
    ensures IndexesInOrder(Later(n, es)) <==> !ResolvedTwice(n, Later(n, es))
    decreases |es|
  {
    if es != [] {
      var s, e := Later(n, es[..|es| - 1]), es[|es| - 1];
      InOrderExactly(n, es[..|es| - 1]);
      LaterInv(n, es[..|es| - 1]);
      LaterInv(n, es);
      if ResolvedTwice(n, Later(n, es)) {
        TwiceIsOutOfOrder(n, Later(n, es));
      } else {
        InOrderStep(n, s, e);
      }
    }
  }

  lemma InOrderStep(n: nat, s: Runs, e: Event)
    requires RunsInv(n, s) && (IndexesInOrder(s) <==> !ResolvedTwice(n, s))
    ensures IndexesInOrder(Happens(n, s, e)) || ResolvedTwice(n, Happens(n, s, e))
  {
    if ResolvedTwice(n, s) {
      TwiceStays(n, s, e);
    } else if e.On? && e.run < |s.runs| && !e.step.Call? && !IndexesInOrder(Happens(n, s, e)) {
      OutOfOrderIsTwice(n, s, e.run, Next(s.runs[e.run].tx, ActualStep(n, s.runs[e.run].index, e.step)));
    }
  }

  // ---------------------------------------------------------------- what a caller can do about it

  /** A run of this transaction has been started and is not over. */
  predicate Going(s: Runs, i: nat) {
    exists a :: 0 <= a < |s.runs| && s.runs[a].index == i && !s.runs[a].tx.run.hasRun
  }

  ghost predicate OneAtATime(n: nat, es: seq<Event>) {
    forall k :: 0 <= k < |es| && es[k].CallRun? ==> !Going(Later(n, es[..k]), es[k].index)
  }

  ghost predicate OneRunEach(s: Runs) {
    forall a, b :: 0 <= a < b < |s.runs| ==> s.runs[a].index != s.runs[b].index
  }

  lemma OneRunEachKept(n: nat, s: Runs, e: Event)
    requires RunsInv(n, s) && OneRunEach(s) && (e.CallRun? ==> !Going(s, e.index))
    ensures OneRunEach(Happens(n, s, e))
  {
  }

  lemma {:induction false} OneRunEachAlways(n: nat, es: seq<Event>)
    requires OneAtATime(n, es)
    ensures OneRunEach(Later(n, es))
    decreases |es|
  {
    if es != [] {
      var before := es[..|es| - 1];
      forall k | 0 <= k < |before| && before[k].CallRun? ensures !Going(Later(n, before[..k]), before[k].index) {
        assert before[..k] == es[..k];
      }
      OneRunEachAlways(n, before);
      LaterInv(n, before);
      OneRunEachKept(n, Later(n, before), es[|es| - 1]);
    }
  }

  /** If no transaction is called while a run of it is still going, the indexes stay in order. */
  lemma InOrderIfOneAtATime(n: nat, es: seq<Event>)
    requires OneAtATime(n, es)
    ensures IndexesInOrder(Later(n, es))
  {
    OneRunEachAlways(n, es);
    InOrderExactly(n, es);
  }

  // ---------------------------------------------------------------- what is refused from then on

  /** The first place with a wrong index. */
  ghost predicate BrokenAt(s: Runs, k: nat) {
    k < |s.processed| && s.processed[..k] == Range(k) && s.processed[k] != k
  }

  lemma BrokenIfOutOfOrder(s: Runs) returns (k: nat)
    requires !IndexesInOrder(s)
    ensures BrokenAt(s, k)
  {
    k := 0;
    while k < |s.processed| && s.processed[k] == k
      invariant k <= |s.processed|
      invariant s.processed[..k] == Range(k)
    {
      assert s.processed[..k + 1] == s.processed[..k] + [k];
      RangeSucc(k);
      k := k + 1;
    }
    assert s.processed[..|s.processed|] == s.processed;
  }

  /** No run of a transaction beyond that place has been started. */
  lemma {:induction false} NoneBeyond(n: nat, s: Runs, k: nat, j: nat)
    requires RunsInv(n, s) && BrokenAt(s, k) && j > k
    ensures !InOrder(s.processed, j)
    decreases j
  {
    if InOrder(s.processed, j) && j > k + 1 {
      assert NotedBy(n, s, j - 1);
      assert InOrder(s.processed, s.runs[s.noted[j - 1]].index);
      NoneBeyond(n, s, k, j - 1);
    }
  }

  /** The wrong index is one that already stands where it belongs, and not always just before. */
  lemma WrongIndexIsRepeated(n: nat, s: Runs, k: nat)
    requires RunsInv(n, s) && BrokenAt(s, k)
    ensures s.processed[k] < k && s.processed[s.processed[k]] == s.processed[k]
  {
    assert NotedBy(n, s, k);
    var i := s.processed[k];
    assert InOrder(s.processed, i);
    if i > k {
      NoneBeyond(n, s, k, i);
    }
    assert s.processed[i] == s.processed[..k][i];
  }

  lemma {:induction false} ProcessedGrows(n: nat, es: seq<Event>, more: seq<Event>)
    ensures Later(n, es).processed <= Later(n, es + more).processed
    decreases |more|
  {
    if more == [] {
      assert es + more == es;
    } else {
      var less, e := more[..|more| - 1], more[|more| - 1];
      ProcessedGrows(n, es, less);
      assert es + more == es + less + [e];
      OneLater(n, es + less, e);
      LaterInv(n, es + less);
      HappensKeeps(n, Later(n, es + less), e);
    }
  }

  /** Once the first wrong index stands at place `k`, exactly the transactions 0 to `k` pass the check: from
      `k + 1` on every call is refused, whatever happens afterwards. */
  lemma RefusedFromThenOn(n: nat, es: seq<Event>, more: seq<Event>, k: nat, j: nat)
    requires BrokenAt(Later(n, es), k)
    ensures InOrder(Later(n, es + more).processed, j) <==> j <= k
  {
    ProcessedGrows(n, es, more);
    LaterInv(n, es + more);
    var t := Later(n, es + more);
    assert t.processed[..k] == Later(n, es).processed[..k];
    if j > k {
      NoneBeyond(n, t, k, j);
    } else if j > 0 {
      assert t.processed[j - 1] == t.processed[..k][j - 1];
    }
  }

  /** So two resolved runs of one transaction other than the last shut out all transactions beyond some place. */
  lemma OverlapLocksTheBatch(n: nat, es: seq<Event>) returns (k: nat)
    requires ResolvedTwice(n, Later(n, es))
    ensures BrokenAt(Later(n, es), k)
    ensures forall more, j: nat :: InOrder(Later(n, es + more).processed, j) <==> j <= k
  {
    InOrderExactly(n, es);
    k := BrokenIfOutOfOrder(Later(n, es));
    forall more, j: nat ensures InOrder(Later(n, es + more).processed, j) <==> j <= k {
      RefusedFromThenOn(n, es, more, k, j);
    }
  }

  // ---------------------------------------------------------------- one such run

  /** From the call to the signer's approval. */
  function UpToApproval(a: nat): seq<Event> {
    [CallRun(0)] + [On(a, FeesAnswered(Covered))] + [On(a, Approve("0x1", true))]
  }

  /** Two runs of the first transaction, the second called before the first is over. */
  function BothApproved(): seq<Event> {
    UpToApproval(0) + UpToApproval(1)
  }

  /** Then both are finalized. */
  function TwoRuns(r: Receipt, q: Receipt): seq<Event> {
    BothApproved() + [On(0, Arrive(r))] + [On(1, Arrive(q))]
  }

  ghost function Going1(others: seq<Started>, t: State): Runs {
    Runs(others + [Started(0, t)], [], [], [])
  }

  /** A step of the newest of them that settles nothing. */
  lemma NewestGoesOn(n: nat, es: seq<Event>, others: seq<Started>, before: State, e: Step, after: State)
    requires Later(n, es) == Going1(others, before) && Inv(before) && Next(before, e) == after
    requires after.settled.Open? && !e.Call? && !e.ValueReady? && !e.ValueThrew?
    ensures Later(n, es + [On(|others|, e)]) == Going1(others, after)
  {
    OneLater(n, es, On(|others|, e));
    assert Going1(others, before).runs[|others| := Started(0, after)] == Going1(others, after).runs;
  }

  lemma AskingFits()
    ensures Inv(Asking(false))
  {
    OpeningAsks(false);
    AfterInv(false, Opening());
  }

  /** One more run of the first transaction, none of the others being over. */
  lemma OneMoreRun(n: nat, es: seq<Event>, others: seq<Started>)
    requires n > 0 && Later(n, es) == Runs(others, [], [], [])
    requires forall a :: 0 <= a < |others| ==> !others[a].tx.run.hasRun
    ensures Later(n, es + UpToApproval(|others|)) == Going1(others, Signed())
  {
    var a := |others|;
    RunStarts();
    CalledFits();
    AskingFits();
    OneLater(n, es, CallRun(0));
    NewestGoesOn(n, es + [CallRun(0)], others, Called(), FeesAnswered(Covered), Asking(false));
    NewestGoesOn(n, es + [CallRun(0)] + [On(a, FeesAnswered(Covered))], others, Asking(false), Approve("0x1", true), Signed());
    assert es + UpToApproval(a) == es + [CallRun(0)] + [On(a, FeesAnswered(Covered))] + [On(a, Approve("0x1", true))];
  }

  lemma BothApprovedReached(n: nat)
    requires n > 0
    ensures Later(n, BothApproved()) == Runs([Started(0, Signed())] + [Started(0, Signed())], [], [], [])
  {
    OneMoreRun(n, [], []);
    assert [] + UpToApproval(0) == UpToApproval(0);
    var one := [Started(0, Signed())];
    assert Going1([], Signed()) == Runs(one, [], [], []);
    OneMoreRun(n, UpToApproval(0), one);
  }

  lemma FinalizedRun(n: nat, es: seq<Event>, s: Runs, a: nat, r: Receipt)
    requires Later(n, es) == s && a < |s.runs| && s.runs[a] == Started(0, Signed()) && r.status.Finalized?
    ensures Later(n, es + [On(a, Arrive(r))]) == Noting(n, s, a, Delivered(r))
  {
    RunResolves(r);
    OneLater(n, es, On(a, Arrive(r)));
  }

  lemma BothResolve(n: nat, es: seq<Event>, r: Receipt, q: Receipt)
    requires n > 1 && r.status.Finalized? && q.status.Finalized?
    requires Later(n, es) == Runs([Started(0, Signed())] + [Started(0, Signed())], [], [], [])
    ensures var t := Later(n, es + [On(0, Arrive(r))] + [On(1, Arrive(q))]);
            t.processed == [0, 0] && ResolvedTwice(n, t) && BrokenAt(t, 1)
  {
    var s := Runs([Started(0, Signed()), Started(0, Signed())], [], [], []);
    var t := Runs([Started(0, Delivered(r)), Started(0, Signed())], [r], [0], [0]);
    FinalizedRun(n, es, s, 0, r);
    assert Noting(n, s, 0, Delivered(r)) == t;
    FinalizedRun(n, es + [On(0, Arrive(r))], t, 1, q);
    BothDelivered(n, r, q);
  }

  lemma BothDelivered(n: nat, r: Receipt, q: Receipt)
    requires n > 1
    ensures var s := Runs([Started(0, Delivered(r)), Started(0, Signed())], [r], [0], [0]);
            var t := Noting(n, s, 1, Delivered(q));
            t.processed == [0, 0] && ResolvedTwice(n, t) && BrokenAt(t, 1)
  {
    var s := Runs([Started(0, Delivered(r)), Started(0, Signed())], [r], [0], [0]);
    var t := Noting(n, s, 1, Delivered(q));
    assert t.runs == [Started(0, Delivered(r)), Started(0, Delivered(q))];
    assert BothResolved(n, t, 0, 1);
    assert t.processed[..1] == [0] == Range(1);
  }

  /** Both note index 0, so with more than two transactions the third is never run. */
  lemma NotedTwice(n: nat, r: Receipt, q: Receipt)
    requires n > 1 && r.status.Finalized? && q.status.Finalized?
    ensures Later(n, TwoRuns(r, q)).processed == [0, 0]
    ensures ResolvedTwice(n, Later(n, TwoRuns(r, q))) && BrokenAt(Later(n, TwoRuns(r, q)), 1)
  {
    BothApprovedReached(n);
    BothResolve(n, BothApproved(), r, q);
  }
}
