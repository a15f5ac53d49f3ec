/** `emitWhenMiddlewareIsSynced`: after a run, the middleware is polled until it has seen the latest block. */
module MiddlewareSync {
  import opened Common

  /** What a poll comes back with: the last block the middleware has processed, or a failure. */
  datatype Answer = Processed(block: nat) | Unreachable

  /** The `ProcessedByMiddleware` event, without an error or with one. */
  datatype Notice = Synced | NotSynced(code: ErrorCode)

  const POLLS: nat := 6

  predicate Reaches(a: Answer, target: nat) {
    a.Processed? && target <= a.block
  }

  /** The number of polls up to and including the first that reaches the target; one more than there are if none does. */
  function FirstReach(answers: seq<Answer>, target: nat): (n: nat)
    ensures 1 <= n <= |answers| + 1
    ensures n <= |answers| ==> answers[n - 1].Processed? && answers[n - 1].block >= target
    ensures forall i :: 0 <= i < n - 1 ==> answers[i].Unreachable? || answers[i].block < target
  {
    if answers == [] || Reaches(answers[0], target) then 1 else 1 + FirstReach(answers[1..], target)
  }

  /** With a middleware, exactly one notice is sent: that it has caught up, right after the first poll to show it;
      or an error, after the last poll, or at once if the target block is not known. No poll follows a success. */
  method EmitWhenMiddlewareIsSynced(enabled: bool, latestBlock: Option<nat>, answers: seq<Answer>)
    returns (notices: seq<Notice>, polls: nat)
    requires |answers| == 6
    ensures !enabled ==> notices == [] && polls == 0
    ensures enabled && latestBlock.None? ==> notices == [NotSynced(UnexpectedError)] && polls == 0
    ensures enabled && latestBlock.Some? ==>
              var n := FirstReach(answers, latestBlock.value);
              if n <= 6 then notices == [Synced] && polls == n
              else notices == [NotSynced(MiddlewareError)] && polls == 6
  {
    notices, polls := [], 0;
    if !enabled {
      return;
    }
    if latestBlock.None? {
      return [NotSynced(UnexpectedError)], 0;
    }
    var blockNumber := latestBlock.value;
    ghost var n := FirstReach(answers, blockNumber);
    var done := false;
    for i := 0 to POLLS
      invariant done <==> n <= i
      invariant polls == if done then n else i
      invariant notices == if done then [Synced] else if i == POLLS then [NotSynced(MiddlewareError)] else []
    {
      if !done {
        polls := polls + 1;
        if answers[i].Processed? && blockNumber <= answers[i].block {
          done := true;
          notices := notices + [Synced];
        } else if i == 5 {
          notices := notices + [NotSynced(MiddlewareError)];
        }
      }
    }
  }
}
