/** Transaction receipts: merging the receipts of several transactions into the receipt a batch
    would have produced, and cutting a batch receipt back into the part of some of its members. */
module Receipts {
  import opened Common

  /** The events the SDK looks for: `system.ExtrinsicFailed`, `utility.BatchInterrupted` and
      `utility.BatchCompleted`; and all others. */
  datatype EventKind = ExtrinsicFailed | BatchInterrupted | BatchCompleted | Other(section: string, name: string)

  /** `counts` is the payload of a `BatchCompleted` event; `payload` stands for all other data. */
  datatype Event = Event(kind: EventKind, counts: seq<nat>, payload: int)

  /** A completed receipt is in a block, finalized or errored; any other one is only in progress. */
  datatype ReceiptStatus = InProgress | InBlock(hash: string) | Finalized(hash: string) | Errored

  datatype Receipt = Receipt(status: ReceiptStatus, txIndex: nat, events: seq<Event>)

  /** Those of one kind, in order. */
  function FilterRecords(events: seq<Event>, kind: EventKind): (r: seq<Event>)
    ensures forall e :: e in r <==> e in events && e.kind == kind
  {
    if events == [] then []
    else
      var rest := FilterRecords(events[1..], kind);
      if events[0].kind == kind then [events[0]] + rest else rest
  }

  predicate Emitted(r: Receipt, kind: EventKind) {
    FilterRecords(r.events, kind) != []
  }

  lemma EmittedExactly(r: Receipt, kind: EventKind)
    ensures Emitted(r, kind) <==> exists e :: e in r.events && e.kind == kind
  {
    var found := FilterRecords(r.events, kind);
    if found != [] {
      assert found[0] in found;
    }
  }

  lemma {:induction false} FilterAppend(a: seq<Event>, b: seq<Event>, kind: EventKind)
    ensures FilterRecords(a + b, kind)
         == FilterRecords(a, kind) + FilterRecords(b, kind)
  {
    if a == [] {
      assert a + b == b;
    } else {
      assert (a + b)[1..] == a[1..] + b;
      FilterAppend(a[1..], b, kind);
    }
  }

  // ---------------------------------------------------------------- merging

  function AllEvents(rs: seq<Receipt>): (r: seq<Event>) {
    if rs == [] then [] else rs[0].events + AllEvents(rs[1..])
  }

  function Counts(rs: seq<Receipt>): (r: seq<nat>)
    ensures |r| == |rs|
    ensures forall i :: 0 <= i < |rs| ==> r[i] == |rs[i].events|
  {
    seq(|rs|, i requires 0 <= i < |rs| => |rs[i].events|)
  }

  function Completed(counts: seq<nat>): Event {
    Event(BatchCompleted, counts, 0)
  }

  function Merge(rs: seq<Receipt>): Receipt
    requires rs != []
  {
    rs[|rs| - 1].(events := AllEvents(rs) + [Completed(Counts(rs))])
  }

  lemma {:induction false} AllEventsAppend(a: seq<Receipt>, b: seq<Receipt>)
    ensures AllEvents(a + b) == AllEvents(a) + AllEvents(b)
  {
    if a == [] {
      assert a + b == b;
    } else {
      assert (a + b)[1..] == a[1..] + b;
      AllEventsAppend(a[1..], b);
    }
  }

  method MergeReceipts(receipts: seq<Receipt>) returns (merged: Receipt)
    requires receipts != []
    ensures merged == Merge(receipts)
  {
    var eventsPerTransaction: seq<nat> := [];
    var allEvents: seq<Event> := [];
    for i := 0 to |receipts|
      invariant eventsPerTransaction == Counts(receipts[..i])
      invariant allEvents == AllEvents(receipts[..i])
    {
      assert receipts[..i + 1] == receipts[..i] + [receipts[i]];
      AllEventsAppend(receipts[..i], [receipts[i]]);
      assert AllEvents([receipts[i]]) == receipts[i].events;
      eventsPerTransaction := eventsPerTransaction + [|receipts[i].events|];
      allEvents := allEvents + receipts[i].events;
    }
    assert receipts[..|receipts|] == receipts;
    merged := receipts[|receipts| - 1].(events := allEvents + [Completed(eventsPerTransaction)]);
  }

  // ---------------------------------------------------------------- slicing

  function Sum(ns: seq<nat>): nat {
    if ns == [] then 0 else ns[0] + Sum(ns[1..])
  }

  lemma {:induction false} SumAppend(a: seq<nat>, b: seq<nat>)
    ensures Sum(a + b) == Sum(a) + Sum(b)
  {
    if a == [] {
      assert a + b == b;
    } else {
      assert (a + b)[1..] == a[1..] + b;
      SumAppend(a[1..], b);
    }
  }

  /** Where the events of the first `n` transactions end, if the counts are to be believed. */
  function Cut(events: seq<Event>, counts: seq<nat>, n: nat): (c: nat)
    requires n <= |counts|
    ensures c <= |events|
  {
    Min(Sum(counts[..n]), |events|)
  }

  lemma CutSucc(events: seq<Event>, counts: seq<nat>, n: nat)
    requires n < |counts|
    ensures Cut(events, counts, n) <= Cut(events, counts, n + 1)
    ensures Cut(events, counts, n + 1) == Cut(events, counts, n) + Min(counts[n], |events| - Cut(events, counts, n))
  {
    assert counts[..n + 1] == counts[..n] + [counts[n]];
    SumAppend(counts[..n], [counts[n]]);
    assert Sum([counts[n]]) == counts[n];
  }

  lemma {:induction false} CutMonotone(events: seq<Event>, counts: seq<nat>, m: nat, n: nat)
    requires m <= n <= |counts|
    ensures Cut(events, counts, m) <= Cut(events, counts, n)
    decreases n
  {
    if m < n {
      CutMonotone(events, counts, m, n - 1);
      CutSucc(events, counts, n - 1);
    }
  }

  /** The events of the transactions `from` to `to`, if the counts are to be believed. */
  function Segment(events: seq<Event>, counts: seq<nat>, from: nat, to: nat): (s: seq<Event>)
    requires to <= |counts|
  {
    if to <= from then []
    else
      CutMonotone(events, counts, from, to);
      events[Cut(events, counts, from)..Cut(events, counts, to)]
  }

  lemma SegmentSucc(events: seq<Event>, counts: seq<nat>, from: nat, to: nat)
    requires from <= to < |counts|
    ensures Cut(events, counts, to) <= Cut(events, counts, to + 1)
    ensures Segment(events, counts, from, to + 1)
         == Segment(events, counts, from, to) + events[Cut(events, counts, to)..Cut(events, counts, to + 1)]
  {
    CutSucc(events, counts, to);
    CutMonotone(events, counts, from, to);
  }

  /** The slice between two transaction indexes: one contiguous piece of the event list. */
  function Slice(receipt: Receipt, from: int, to: int): (r: Result<Receipt, ErrorCode>) {
    var completed := FilterRecords(receipt.events, BatchCompleted);
    if completed == [] then Err(UnexpectedError)
    else
      var counts := completed[0].counts;
      if |counts| < to || from < 0 then Err(UnexpectedError)
      else if to < 0 then Ok(receipt.(events := []))
      else Ok(receipt.(events := Segment(receipt.events, counts, from, to)))
  }

  /** Removes the events of one transaction after another from a copy of the event list and keeps those
      of the wanted transactions. */
  method SliceBatchReceipt(receipt: Receipt, from: int, to: int) returns (r: Result<Receipt, ErrorCode>)
    ensures r == Slice(receipt, from, to)
  {
    var completed := FilterRecords(receipt.events, BatchCompleted);
    if completed == [] {
      return Err(UnexpectedError);
    }
    var counts := completed[0].counts;
    if |counts| < to || from < 0 {
      return Err(UnexpectedError);
    }
    var sliced := RemoveInTurn(receipt.events, counts, from, to);
    r := Ok(receipt.(events := sliced));
  }

  /** What has been removed and kept after `i` transactions. */
  function Kept(events: seq<Event>, counts: seq<nat>, from: nat, to: int, i: nat): seq<Event>
    requires to <= |counts|
  {
    if to < 0 then [] else Segment(events, counts, from, if i <= to then i else to)
  }

  lemma KeptSucc(events: seq<Event>, counts: seq<nat>, from: nat, to: int, i: nat)
    requires to <= |counts| && i < |counts|
    ensures Cut(events, counts, i) <= Cut(events, counts, i + 1)
    ensures Kept(events, counts, from, to, i + 1)
         == Kept(events, counts, from, to, i)
          + (if from <= i < to then events[Cut(events, counts, i)..Cut(events, counts, i + 1)] else [])
  {
    if from <= i < to {
      SegmentSucc(events, counts, from, i);
    } else {
      CutMonotone(events, counts, i, i + 1);
      assert i < to ==> Segment(events, counts, from, i + 1) == [] == Segment(events, counts, from, i);
    }
  }

  lemma DropTake<T>(s: seq<T>, a: nat, n: nat)
    requires a + n <= |s|
    ensures s[a..][..n] == s[a..a + n]
    ensures s[a..][n..] == s[a + n..]
  {
  }

  method RemoveInTurn(events: seq<Event>, counts: seq<nat>, from: nat, to: int) returns (sliced: seq<Event>)
    requires to <= |counts|
    ensures sliced == Kept(events, counts, from, to, |counts|)
  {
    var cloned := events;
    sliced := [];
    ghost var gone := 0;
    for i := 0 to |counts|
      invariant gone == Cut(events, counts, i)
      invariant cloned == events[gone..]
      invariant sliced == Kept(events, counts, from, to, i)
    {
      KeptSucc(events, counts, from, to, i);
      CutSucc(events, counts, i);
      var n := Min(counts[i], |cloned|);
      DropTake(events, gone, n);
      if from <= i < to {
        sliced := sliced + cloned[..n];
      }
      cloned := cloned[n..];
      gone := gone + n;
    }
  }

  /** How many events the first `i` receipts have. */
  function Before(rs: seq<Receipt>, i: nat): nat
    requires i <= |rs|
  {
    if i == 0 then 0 else Before(rs, i - 1) + |rs[i - 1].events|
  }

  lemma {:induction false} BeforeIsLength(rs: seq<Receipt>, i: nat)
    requires i <= |rs|
    ensures Before(rs, i) == |AllEvents(rs[..i])|
  {
    if i > 0 {
      BeforeIsLength(rs, i - 1);
      assert rs[..i] == rs[..i - 1] + [rs[i - 1]];
      AllEventsAppend(rs[..i - 1], [rs[i - 1]]);
      assert AllEvents([rs[i - 1]]) == rs[i - 1].events;
    }
  }

  /** The merged receipt: the last one's status and index; every receipt's events, where those of its predecessors
      end; and, last, one `BatchCompleted` event with the number of events each receipt has. */
  lemma MergeMeans(rs: seq<Receipt>, i: nat)
    requires i < |rs|
    ensures var merged, n := Merge(rs), |rs|;
            && merged.status == rs[n - 1].status && merged.txIndex == rs[n - 1].txIndex
            && |merged.events| == Before(rs, n) + 1
            && merged.events[Before(rs, n)].kind == BatchCompleted
            && |merged.events[Before(rs, n)].counts| == n
            && merged.events[Before(rs, n)].counts[i] == |rs[i].events|
            && Before(rs, i) + |rs[i].events| <= Before(rs, n)
            && merged.events[Before(rs, i)..Before(rs, i) + |rs[i].events|] == rs[i].events
  {
    BeforeIsLength(rs, |rs|);
    BeforeIsLength(rs, i);
    BeforeIsLength(rs, i + 1);
    EventsAtCut(rs, i, i + 1);
    assert rs[..|rs|] == rs && rs[i..i + 1] == [rs[i]];
    assert AllEvents([rs[i]]) == rs[i].events;
  }

  /** A slice: refused without the event or for a range it has no counts for; otherwise the receipt with the events
      between the sums of the counts before `from` and before `to`, as far as there are events. */
  lemma SliceMeans(receipt: Receipt, from: int, to: int, completed: Event)
    requires Emitted(receipt, BatchCompleted) ==> completed == FilterRecords(receipt.events, BatchCompleted)[0]
    ensures var r, len := Slice(receipt, from, to), |receipt.events|;
            && (r.Err? <==> !Emitted(receipt, BatchCompleted) || from < 0 || to > |completed.counts|)
            && (r.Err? ==> r.error == UnexpectedError)
            && (r.Ok? ==> r.value == receipt.(events := r.value.events))
            && (r.Ok? && from >= to ==> r.value.events == [])
            && (r.Ok? && from < to ==>
                  var a, b := Sum(completed.counts[..from]), Sum(completed.counts[..to]);
                  && Min(a, len) <= Min(b, len)
                  && r.value.events == receipt.events[Min(a, len)..Min(b, len)])
  {
    if Emitted(receipt, BatchCompleted) && 0 <= from < to <= |completed.counts| {
      CutMonotone(receipt.events, completed.counts, from, to);
    }
  }

  // ---------------------------------------------------------------- merging, then slicing

  lemma {:induction false} CountsAddUp(rs: seq<Receipt>)
    ensures Sum(Counts(rs)) == |AllEvents(rs)|
  {
    if rs != [] {
      assert Counts(rs)[1..] == Counts(rs[1..]);
      CountsAddUp(rs[1..]);
    }
  }

  /** The events of the receipts `i` to `j` sit where the counts say. */
  lemma EventsAtCut(rs: seq<Receipt>, i: nat, j: nat)
    requires i <= j <= |rs|
    ensures |AllEvents(rs[..i])| <= |AllEvents(rs[..j])| <= |AllEvents(rs)|
    ensures AllEvents(rs)[|AllEvents(rs[..i])|..|AllEvents(rs[..j])|] == AllEvents(rs[i..j])
  {
    assert rs == rs[..j] + rs[j..];
    assert rs[..j] == rs[..i] + rs[i..j];
    AllEventsAppend(rs[..j], rs[j..]);
    AllEventsAppend(rs[..i], rs[i..j]);
  }

  /** The first `BatchCompleted` event of the merged receipt: the one `Slice` reads. */
  function FirstCompleted(rs: seq<Receipt>): Event
    requires rs != []
  {
    FilterAppend(AllEvents(rs), [Completed(Counts(rs))], BatchCompleted);
    assert Completed(Counts(rs)) in FilterRecords([Completed(Counts(rs))], BatchCompleted);
    FilterRecords(Merge(rs).events, BatchCompleted)[0]
  }

  ghost predicate RoundTrips(rs: seq<Receipt>, i: nat, j: nat)
    requires rs != [] && i <= j <= |rs|
  {
    Slice(Merge(rs), i, j) == Ok(Merge(rs).(events := AllEvents(rs[i..j])))
  }

  ghost predicate TruthfulCounts(rs: seq<Receipt>)
    requires rs != []
  {
    var counts := FirstCompleted(rs).counts;
    |rs| <= |counts| && counts[..|rs|] == Counts(rs)
  }

  lemma CutOfMerge(rs: seq<Receipt>, counts: seq<nat>, k: nat)
    requires rs != [] && k <= |rs| && k <= |counts|
    requires counts[..k] == Counts(rs)[..k]
    ensures Cut(Merge(rs).events, counts, k) == |AllEvents(rs[..k])|
  {
    assert counts[..k] == Counts(rs[..k]);
    CountsAddUp(rs[..k]);
    EventsAtCut(rs, k, |rs|);
  }

  lemma SliceOfMerge(rs: seq<Receipt>, i: nat, j: nat)
    requires rs != [] && i <= j <= |rs|
    requires TruthfulCounts(rs)
    ensures RoundTrips(rs, i, j)
  {
    var counts := FirstCompleted(rs).counts;
    assert counts[..i] == counts[..|rs|][..i] && counts[..j] == counts[..|rs|][..j];
    CutOfMerge(rs, counts, i);
    CutOfMerge(rs, counts, j);
    EventsAtCut(rs, i, j);
    assert i == j ==> rs[i..j] == [];
    assert Segment(Merge(rs).events, counts, i, j) == AllEvents(rs[i..j]);
  }

  /** Cutting a merged receipt gives back the events of exactly the receipts asked for, for every range,
      if and only if the first `BatchCompleted` event among them tells the true counts. */
  lemma RoundTripExactly(rs: seq<Receipt>)
    requires rs != []
    ensures (forall i: nat, j: nat :: i <= j <= |rs| ==> RoundTrips(rs, i, j)) <==> TruthfulCounts(rs)
  {
    if TruthfulCounts(rs) {
      forall i: nat, j: nat | i <= j <= |rs| ensures RoundTrips(rs, i, j) {
        SliceOfMerge(rs, i, j);
      }
    }
    if forall i: nat, j: nat :: i <= j <= |rs| ==> RoundTrips(rs, i, j) {
      assert RoundTrips(rs, 0, |rs|);
      AgreeUpTo(rs, |rs|);
      assert FirstCompleted(rs).counts[..|rs|] == Counts(rs);
    }
  }

  lemma {:induction false} AgreeUpTo(rs: seq<Receipt>, n: nat)
    requires rs != [] && n <= |rs| <= |FirstCompleted(rs).counts|
    requires forall i: nat, j: nat :: i <= j <= |rs| ==> RoundTrips(rs, i, j)
    ensures FirstCompleted(rs).counts[..n] == Counts(rs)[..n]
  {
    if n > 0 {
      AgreeUpTo(rs, n - 1);
      assert RoundTrips(rs, n - 1, n);
      AgreeNext(rs, FirstCompleted(rs).counts, n - 1);
    }
  }

  /** One more count can be read off the length of one more slice. */
  lemma AgreeNext(rs: seq<Receipt>, counts: seq<nat>, k: nat)
    requires rs != [] && k < |rs| && k < |counts|
    requires counts[..k] == Counts(rs)[..k]
    requires Segment(Merge(rs).events, counts, k, k + 1) == AllEvents(rs[k..k + 1])
    ensures counts[..k + 1] == Counts(rs)[..k + 1]
  {
    var events := Merge(rs).events;
    var size := |rs[k].events|;
    assert |AllEvents(rs[k..k + 1])| == size by {
      assert rs[k..k + 1] == [rs[k]];
      assert AllEvents([rs[k]]) == rs[k].events;
    }
    assert Cut(events, counts, k) + size < |events| by {
      CutOfMerge(rs, counts, k);
      EventsAtCut(rs, k, k + 1);
    }
    assert Min(counts[k], |events| - Cut(events, counts, k)) == size by {
      CutSucc(events, counts, k);
    }
    assert counts[..k + 1] == counts[..k] + [counts[k]];
    assert Counts(rs)[..k + 1] == Counts(rs)[..k] + [Counts(rs)[k]];
  }

  /** Receipts without a `BatchCompleted` event of their own, which is what non-batch transactions give. */
  lemma PlainReceiptsAreTruthful(rs: seq<Receipt>)
    requires rs != []
    requires forall r :: r in rs ==> !Emitted(r, BatchCompleted)
    ensures TruthfulCounts(rs)
  {
    NoneCompleted(rs);
    FilterAppend(AllEvents(rs), [Completed(Counts(rs))], BatchCompleted);
    assert FilterRecords([Completed(Counts(rs))], BatchCompleted)[0] == Completed(Counts(rs));
    assert Counts(rs)[..|rs|] == Counts(rs);
  }

  lemma {:induction false} NoneCompleted(rs: seq<Receipt>)
    requires forall r :: r in rs ==> !Emitted(r, BatchCompleted)
    ensures FilterRecords(AllEvents(rs), BatchCompleted) == []
  {
    if rs != [] {
      FilterAppend(rs[0].events, AllEvents(rs[1..]), BatchCompleted);
      assert !Emitted(rs[0], BatchCompleted);
      NoneCompleted(rs[1..]);
    }
  }

  /** A transaction that was itself a batch breaks the round trip: its own event is found first. */
  lemma NestedBatchBreaksTheRoundTrip(r: Receipt)
    requires r.events == [Event(BatchCompleted, [0], 7)]
    ensures !RoundTrips([r], 0, 1)
  {
    assert AllEvents([r]) == r.events;
    var merged := Merge([r]);
    assert FilterRecords(merged.events, BatchCompleted)[0] == r.events[0];
    assert r.events[0].counts[..1] == [0];
    assert Sum([0]) == 0;
    assert [r][0..1] == [r];
  }
}
